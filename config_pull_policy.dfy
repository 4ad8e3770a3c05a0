/** The pull-policy command: with no argument it reports the persisted policy, with
 *  one argument it sets it, and with --unset it clears it, writing the whole
 *  configuration record through the store after each change.
 *
 *  A run is described on values first. Plan gives the error a run stops with
 *  before doing anything, or the effects it performs in order when no write
 *  fails; Perform carries those effects out against a store's write faults and
 *  stops at the first write that fails. The command object below does the same
 *  step by step, and its contract ties it to Perform(Plan(...)). */
module ConfigPullPolicy {
  import opened Errors
  import opened PullPolicies
  import opened Configs

  /** One visible step: an info line logged, or a record written to the store. */
  datatype Effect = LogLine(line: string) | WriteRecord(record: Config)

  /** The --unset step: clear the policy, write, and say so. */
  function UnsetEffects(cfg: Config, unset: bool): seq<Effect>
  {
    if unset then [WriteRecord(cfg.(pullPolicy := "")), LogLine("Resetting pull policy to always")] else []
  }

  /** The decision the command makes from its captured record, its positional
   *  arguments and the --unset flag. The report branch comes before the unset
   *  step, so an unreadable persisted value stops the run even under --unset;
   *  the "already set" branch returns before the unset step is reached. */
  function Plan(cfg: Config, args: seq<string>, unset: bool): Result<seq<Effect>>
  {
    if |args| > 1 then Failure(TooManyArgs(1, |args|))
    else if |args| == 0 then
      match ParsePullPolicy(cfg.pullPolicy)
      case Failure(e) => Failure(Wrapped("parsing pull policy " + cfg.pullPolicy, e))
      case Success(p) => Success([LogLine("Pull policy is " + PolicyString(p))] + UnsetEffects(cfg, unset))
    else if args[0] == cfg.pullPolicy then
      Success([LogLine("Pull policy is already set to " + args[0])])
    else
      match ParsePullPolicy(args[0])
      case Failure(e) => Failure(Wrapped("parsing pull policy " + args[0], e))
      case Success(p) =>
        var updated := cfg.(pullPolicy := args[0]);
        Success([WriteRecord(updated), LogLine("New pull policy is " + PolicyString(p))] + UnsetEffects(updated, unset))
  }

  /** The records a list of effects writes, in order. */
  function Records(effects: seq<Effect>): seq<Config>
    decreases |effects|
  {
    if effects == [] then []
    else (if effects[0].WriteRecord? then [effects[0].record] else []) + Records(effects[1..])
  }

  /** The lines a list of effects logs, in order. */
  function Lines(effects: seq<Effect>): seq<string>
    decreases |effects|
  {
    if effects == [] then []
    else (if effects[0].LogLine? then [effects[0].line] else []) + Lines(effects[1..])
  }

  /** The outcome of performing effects: the error returned, the in-memory record
   *  left behind, the lines logged, the records made durable and the number of
   *  writes attempted. */
  datatype Run = Run(err: Option<Error>, cfg: Config, lines: seq<string>, written: seq<Config>, attempts: nat)

  /** Perform effects starting from in-memory record cfg, against a store whose
   *  next write is attempt number `attempt`. The record is updated in memory
   *  before it is written, so a failed write still leaves it changed. */
  function Perform(effects: seq<Effect>, cfg: Config, faults: map<nat, string>, attempt: nat): Run
    decreases |effects|
  {
    if effects == [] then Run(None, cfg, [], [], 0)
    else match effects[0]
      case LogLine(l) =>
        var rest := Perform(effects[1..], cfg, faults, attempt);
        rest.(lines := [l] + rest.lines)
      case WriteRecord(c) =>
        if attempt in faults then
          Run(Some(Wrapped("writing to config", External(faults[attempt]))), c, [], [], 1)
        else
          var rest := Perform(effects[1..], c, faults, attempt + 1);
          rest.(written := [c] + rest.written, attempts := rest.attempts + 1)
  }

  lemma {:induction false} RecordsAppend(x: seq<Effect>, y: seq<Effect>)
    ensures Records(x + y) == Records(x) + Records(y)
    decreases |x|
  {
    if x == [] {
      assert x + y == y;
    } else {
      assert (x + y)[0] == x[0];
      assert (x + y)[1..] == x[1..] + y;
      RecordsAppend(x[1..], y);
    }
  }

  lemma {:induction false} LinesAppend(x: seq<Effect>, y: seq<Effect>)
    ensures Lines(x + y) == Lines(x) + Lines(y)
    decreases |x|
  {
    if x == [] {
      assert x + y == y;
    } else {
      assert (x + y)[0] == x[0];
      assert (x + y)[1..] == x[1..] + y;
      LinesAppend(x[1..], y);
    }
  }

  /** A single logged line: nothing written, nothing can fail. */
  lemma LineOnly(l: string, cfg: Config, faults: map<nat, string>, a: nat)
    ensures Records([LogLine(l)]) == [] && Lines([LogLine(l)]) == [l]
    ensures Perform([LogLine(l)], cfg, faults, a) == Run(None, cfg, [l], [], 0)
  {
  }

  /** A write followed by its line: the line is logged only if the write succeeds. */
  lemma WriteThenLine(c: Config, l: string, cfg: Config, faults: map<nat, string>, a: nat)
    ensures Records([WriteRecord(c), LogLine(l)]) == [c] && Lines([WriteRecord(c), LogLine(l)]) == [l]
    ensures Perform([WriteRecord(c), LogLine(l)], cfg, faults, a) ==
      if a in faults then Run(Some(Wrapped("writing to config", External(faults[a]))), c, [], [], 1)
      else Run(None, c, [l], [c], 1)
  {
    assert [WriteRecord(c), LogLine(l)][1..] == [LogLine(l)];
    LineOnly(l, c, faults, a + 1);
  }

  /** The effects of the --unset step. */
  lemma UnsetEffectsShape(cfg: Config, unset: bool)
    ensures Records(UnsetEffects(cfg, unset)) == if unset then [cfg.(pullPolicy := "")] else []
    ensures Lines(UnsetEffects(cfg, unset)) == if unset then ["Resetting pull policy to always"] else []
  {
    WriteThenLine(cfg.(pullPolicy := ""), "Resetting pull policy to always", cfg, map[], 0);
  }

  /** The run of `second` appended to a run `first` that succeeded. */
  function Then(first: Run, second: Run): Run
  {
    Run(second.err, second.cfg, first.lines + second.lines, first.written + second.written, first.attempts + second.attempts)
  }

  /** Performing x + y is performing x and, unless x failed, then y from where x
   *  left the record and the store. */
  lemma {:induction false} PerformAppend(x: seq<Effect>, y: seq<Effect>, cfg: Config, faults: map<nat, string>, a: nat)
    ensures Perform(x + y, cfg, faults, a) ==
      var r := Perform(x, cfg, faults, a);
      if r.err.Some? then r else Then(r, Perform(y, r.cfg, faults, a + r.attempts))
    decreases |x|, 1
  {
    if x == [] {
      assert x + y == y;
    } else {
      assert (x + y)[0] == x[0];
      assert (x + y)[1..] == x[1..] + y;
      match x[0]
      case LogLine(l) =>
        PerformAppendLine(x, y, l, cfg, faults, a);
      case WriteRecord(c) =>
        if a !in faults {
          PerformAppendWrite(x, y, c, cfg, faults, a);
        }
    }
  }

  /** PerformAppend when x starts with a logged line. */
  lemma {:induction false} PerformAppendLine(x: seq<Effect>, y: seq<Effect>, l: string, cfg: Config, faults: map<nat, string>, a: nat)
    requires x != [] && x[0] == LogLine(l) && (x + y)[1..] == x[1..] + y
    ensures Perform(x + y, cfg, faults, a) ==
      var r := Perform(x, cfg, faults, a);
      if r.err.Some? then r else Then(r, Perform(y, r.cfg, faults, a + r.attempts))
    decreases |x|, 0
  {
    PerformAppend(x[1..], y, cfg, faults, a);
    var u := Perform(x[1..], cfg, faults, a);
    assert Perform(x, cfg, faults, a) == u.(lines := [l] + u.lines);
    if u.err.None? {
      var v := Perform(y, u.cfg, faults, a + u.attempts);
      assert [l] + (u.lines + v.lines) == ([l] + u.lines) + v.lines;
    }
  }

  /** PerformAppend when x starts with a write that succeeds. */
  lemma {:induction false} PerformAppendWrite(x: seq<Effect>, y: seq<Effect>, c: Config, cfg: Config, faults: map<nat, string>, a: nat)
    requires x != [] && x[0] == WriteRecord(c) && (x + y)[1..] == x[1..] + y && a !in faults
    ensures Perform(x + y, cfg, faults, a) ==
      var r := Perform(x, cfg, faults, a);
      if r.err.Some? then r else Then(r, Perform(y, r.cfg, faults, a + r.attempts))
    decreases |x|, 0
  {
    PerformAppend(x[1..], y, c, faults, a + 1);
    var u := Perform(x[1..], c, faults, a + 1);
    assert Perform(x, cfg, faults, a) == u.(written := [c] + u.written, attempts := u.attempts + 1);
    if u.err.None? {
      var v := Perform(y, u.cfg, faults, a + 1 + u.attempts);
      assert [c] + (u.written + v.written) == ([c] + u.written) + v.written;
    }
  }

  /** What a run writes and logs is a prefix of what its effects would write and
   *  log, and it attempts no more writes than they hold. */
  lemma {:induction false} PerformPrefix(effects: seq<Effect>, cfg: Config, faults: map<nat, string>, a: nat)
    ensures Perform(effects, cfg, faults, a).written <= Records(effects)
    ensures Perform(effects, cfg, faults, a).lines <= Lines(effects)
    ensures Perform(effects, cfg, faults, a).attempts <= |Records(effects)|
    decreases |effects|
  {
    if effects != [] {
      var rest := effects[1..];
      match effects[0]
      case LogLine(l) =>
        PerformPrefix(rest, cfg, faults, a);
        assert Records(effects) == Records(rest);
        assert Lines(effects) == [l] + Lines(rest);
      case WriteRecord(c) =>
        assert Records(effects) == [c] + Records(rest);
        assert Lines(effects) == Lines(rest);
        if a !in faults {
          PerformPrefix(rest, c, faults, a + 1);
        }
    }
  }

  /** A run succeeds exactly by performing every effect; it fails at the first
   *  faulty attempt, after the writes before it succeeded, with the store's
   *  error wrapped in "writing to config". */
  lemma {:induction false} PerformOutcome(effects: seq<Effect>, cfg: Config, faults: map<nat, string>, a: nat)
    ensures forall k :: a <= k < a + |Perform(effects, cfg, faults, a).written| ==> k !in faults
    ensures var r := Perform(effects, cfg, faults, a);
      r.err.None? ==> r.written == Records(effects) && r.lines == Lines(effects) && r.attempts == |r.written|
    ensures var r := Perform(effects, cfg, faults, a);
      r.err.Some? ==>
        r.attempts == |r.written| + 1 && a + |r.written| in faults &&
        r.err == Some(Wrapped("writing to config", External(faults[a + |r.written|])))
    decreases |effects|
  {
    if effects != [] {
      var rest := effects[1..];
      match effects[0]
      case LogLine(l) =>
        PerformOutcome(rest, cfg, faults, a);
        assert Records(effects) == Records(rest);
        assert Lines(effects) == [l] + Lines(rest);
      case WriteRecord(c) =>
        assert Records(effects) == [c] + Records(rest);
        assert Lines(effects) == Lines(rest);
        if a !in faults {
          PerformOutcome(rest, c, faults, a + 1);
        }
    }
  }

  /** The in-memory record a run leaves is the last record it attempted to write,
   *  or the one it started from. */
  lemma {:induction false} PerformLeavesLastAttempt(effects: seq<Effect>, cfg: Config, faults: map<nat, string>, a: nat)
    ensures Perform(effects, cfg, faults, a).attempts <= |Records(effects)|
    ensures var r := Perform(effects, cfg, faults, a);
      r.cfg == if r.attempts == 0 then cfg else Records(effects)[r.attempts - 1]
    decreases |effects|
  {
    if effects != [] {
      var rest := effects[1..];
      match effects[0]
      case LogLine(l) =>
        PerformLeavesLastAttempt(rest, cfg, faults, a);
        var u := Perform(rest, cfg, faults, a);
        assert Perform(effects, cfg, faults, a) == u.(lines := [l] + u.lines);
        assert Records(effects) == Records(rest);
      case WriteRecord(c) =>
        assert Records(effects) == [c] + Records(rest);
        if a !in faults {
          PerformLeavesLastAttempt(rest, c, faults, a + 1);
          var u := Perform(rest, c, faults, a + 1);
          assert Perform(effects, cfg, faults, a) == u.(written := [c] + u.written, attempts := u.attempts + 1);
          assert ([c] + Records(rest))[u.attempts] == if u.attempts == 0 then c else Records(rest)[u.attempts - 1];
        } else {
          assert Perform(effects, cfg, faults, a).cfg == c;
          assert Records(effects)[0] == c;
        }
    }
  }

  /** When none of the attempts a run could make fails, the run succeeds and
   *  performs every effect. */
  lemma RunWithoutFaults(effects: seq<Effect>, cfg: Config, faults: map<nat, string>, a: nat)
    requires forall k :: a <= k < a + |Records(effects)| ==> k !in faults
    ensures Perform(effects, cfg, faults, a) ==
      Run(None, if Records(effects) == [] then cfg else Records(effects)[|Records(effects)| - 1],
          Lines(effects), Records(effects), |Records(effects)|)
  {
    PerformPrefix(effects, cfg, faults, a);
    PerformOutcome(effects, cfg, faults, a);
    PerformLeavesLastAttempt(effects, cfg, faults, a);
  }

  /** With no argument the command writes nothing before the unset step, and it
   *  reports ParsePullPolicy of the persisted value. */
  lemma ReportWritesNothing(cfg: Config, unset: bool)
    requires ParsePullPolicy(cfg.pullPolicy).Success?
    ensures Plan(cfg, [], unset).Success?
    ensures Lines(Plan(cfg, [], unset).value) ==
      ["Pull policy is " + PolicyString(ParsePullPolicy(cfg.pullPolicy).value)] +
      if unset then ["Resetting pull policy to always"] else []
    ensures Records(Plan(cfg, [], unset).value) == if unset then [cfg.(pullPolicy := "")] else []
  {
    var first := [LogLine("Pull policy is " + PolicyString(ParsePullPolicy(cfg.pullPolicy).value))];
    RecordsAppend(first, UnsetEffects(cfg, unset));
    LinesAppend(first, UnsetEffects(cfg, unset));
    LineOnly(first[0].line, cfg, map[], 0);
    UnsetEffectsShape(cfg, unset);
  }

  /** An unreadable persisted value is reported, naming the value, with nothing
   *  written, whether or not --unset was given. */
  lemma InvalidPersistedStops(cfg: Config, unset: bool)
    requires ParsePullPolicy(cfg.pullPolicy).Failure?
    ensures Plan(cfg, [], unset).Failure?
    ensures RootCause(Plan(cfg, [], unset).error) == InvalidPullPolicy(cfg.pullPolicy)
    ensures EndsWith(Message(Plan(cfg, [], unset).error), "invalid pull policy " + cfg.pullPolicy)
  {
  }

  /** An argument equal to the persisted string is a no-op that logs one line
   *  and skips the unset step. */
  lemma AlreadySetIsNoOp(cfg: Config, unset: bool)
    ensures Plan(cfg, [cfg.pullPolicy], unset) == Success([LogLine("Pull policy is already set to " + cfg.pullPolicy)])
    ensures Records(Plan(cfg, [cfg.pullPolicy], unset).value) == []
  {
    LineOnly("Pull policy is already set to " + cfg.pullPolicy, cfg, map[], 0);
  }

  /** An invalid new argument is rejected, naming it, before anything is written. */
  lemma InvalidArgumentStops(cfg: Config, arg: string, unset: bool)
    requires arg != cfg.pullPolicy && ParsePullPolicy(arg).Failure?
    ensures Plan(cfg, [arg], unset).Failure?
    ensures RootCause(Plan(cfg, [arg], unset).error) == InvalidPullPolicy(arg)
    ensures EndsWith(Message(Plan(cfg, [arg], unset).error), "invalid pull policy " + arg)
  {
  }

  /** A valid new argument is stored verbatim by one write, then reported by the
   *  parsed policy's name; --unset adds a second write that clears it. */
  lemma ValidArgumentStored(cfg: Config, arg: string, unset: bool)
    requires arg != cfg.pullPolicy && ParsePullPolicy(arg).Success?
    ensures Plan(cfg, [arg], unset).Success?
    ensures Records(Plan(cfg, [arg], unset).value) ==
      [cfg.(pullPolicy := arg)] + if unset then [cfg.(pullPolicy := "")] else []
    ensures Lines(Plan(cfg, [arg], unset).value) ==
      ["New pull policy is " + PolicyString(ParsePullPolicy(arg).value)] +
      if unset then ["Resetting pull policy to always"] else []
  {
    var updated := cfg.(pullPolicy := arg);
    var first := [WriteRecord(updated), LogLine("New pull policy is " + PolicyString(ParsePullPolicy(arg).value))];
    RecordsAppend(first, UnsetEffects(updated, unset));
    LinesAppend(first, UnsetEffects(updated, unset));
    WriteThenLine(updated, first[1].line, cfg, map[], 0);
    UnsetEffectsShape(updated, unset);
  }

  /** Every record a run writes is the captured record with only the policy
   *  replaced, and that policy parses; there are at most two writes. */
  lemma PlanWritesOnlyValidPolicies(cfg: Config, args: seq<string>, unset: bool)
    requires Plan(cfg, args, unset).Success?
    ensures |Records(Plan(cfg, args, unset).value)| <= 2
    ensures forall w <- Records(Plan(cfg, args, unset).value) ::
      w == cfg.(pullPolicy := w.pullPolicy) && ParsePullPolicy(w.pullPolicy).Success?
  {
    if |args| == 0 {
      ReportWritesNothing(cfg, unset);
    } else if args[0] == cfg.pullPolicy {
      AlreadySetIsNoOp(cfg, unset);
    } else {
      ValidArgumentStored(cfg, args[0], unset);
    }
  }

  /** Whenever a run gets past the report or set step with --unset, its last
   *  write clears the policy, whatever it was before. */
  lemma UnsetWritesEmptyLast(cfg: Config, args: seq<string>)
    requires Plan(cfg, args, true).Success?
    requires !(|args| == 1 && args[0] == cfg.pullPolicy)
    ensures Records(Plan(cfg, args, true).value) != []
    ensures Records(Plan(cfg, args, true).value)[|Records(Plan(cfg, args, true).value)| - 1].pullPolicy == ""
  {
    if |args| == 0 {
      ReportWritesNothing(cfg, true);
    } else {
      ValidArgumentStored(cfg, args[0], true);
    }
  }

  /** What a run leaves behind, on every outcome: the records it makes durable
   *  and the in-memory record differ from the captured record only in the policy,
   *  and every durable policy parses. */
  lemma RunKeepsOtherSettings(cfg: Config, args: seq<string>, unset: bool, faults: map<nat, string>, a: nat)
    requires Plan(cfg, args, unset).Success?
    ensures var r := Perform(Plan(cfg, args, unset).value, cfg, faults, a);
      forall w <- r.written :: w == cfg.(pullPolicy := w.pullPolicy) && ParsePullPolicy(w.pullPolicy).Success?
    ensures var r := Perform(Plan(cfg, args, unset).value, cfg, faults, a);
      r.cfg == cfg.(pullPolicy := r.cfg.pullPolicy)
  {
    var effects := Plan(cfg, args, unset).value;
    PlanWritesOnlyValidPolicies(cfg, args, unset);
    PerformPrefix(effects, cfg, faults, a);
    PerformOutcome(effects, cfg, faults, a);
    PerformLeavesLastAttempt(effects, cfg, faults, a);
    var r := Perform(effects, cfg, faults, a);
    forall w | w in r.written
      ensures w in Records(effects)
    {
      var i :| 0 <= i < |r.written| && r.written[i] == w;
      assert Records(effects)[i] == w;
    }
    if r.attempts > 0 {
      assert Records(effects)[r.attempts - 1] in Records(effects);
    }
  }

  /** The error a failing write attempt k returns. */
  function WriteError(faults: map<nat, string>, k: nat): Error
    requires k in faults
  {
    Wrapped("writing to config", External(faults[k]))
  }

  /** The report branch in closed form: the report line, then the unset step
   *  if --unset was given, whose write may fail. */
  lemma ReportRun(cfg: Config, unset: bool, faults: map<nat, string>, a: nat)
    requires ParsePullPolicy(cfg.pullPolicy).Success?
    ensures var report := "Pull policy is " + PolicyString(ParsePullPolicy(cfg.pullPolicy).value);
      var cleared := cfg.(pullPolicy := "");
      Plan(cfg, [], unset).Success? &&
      Perform(Plan(cfg, [], unset).value, cfg, faults, a) ==
        if !unset then Run(None, cfg, [report], [], 0)
        else if a in faults then Run(Some(WriteError(faults, a)), cleared, [report], [], 1)
        else Run(None, cleared, [report, "Resetting pull policy to always"], [cleared], 1)
  {
    var l := "Pull policy is " + PolicyString(ParsePullPolicy(cfg.pullPolicy).value);
    LineOnly(l, cfg, faults, a);
    PerformAppend([LogLine(l)], UnsetEffects(cfg, unset), cfg, faults, a);
    WriteThenLine(cfg.(pullPolicy := ""), "Resetting pull policy to always", cfg, faults, a);
  }

  /** The set branch in closed form: the write of the new value, its line, then
   *  the unset step if --unset was given; either write may fail. */
  lemma SetRun(cfg: Config, arg: string, unset: bool, faults: map<nat, string>, a: nat)
    requires arg != cfg.pullPolicy && ParsePullPolicy(arg).Success?
    ensures var updated := cfg.(pullPolicy := arg);
      var cleared := cfg.(pullPolicy := "");
      var line := "New pull policy is " + PolicyString(ParsePullPolicy(arg).value);
      Plan(cfg, [arg], unset).Success? &&
      Perform(Plan(cfg, [arg], unset).value, cfg, faults, a) ==
        if a in faults then Run(Some(WriteError(faults, a)), updated, [], [], 1)
        else if !unset then Run(None, updated, [line], [updated], 1)
        else if a + 1 in faults then Run(Some(WriteError(faults, a + 1)), cleared, [line], [updated], 2)
        else Run(None, cleared, [line, "Resetting pull policy to always"], [updated, cleared], 2)
  {
    var updated := cfg.(pullPolicy := arg);
    var cleared := cfg.(pullPolicy := "");
    var l := "New pull policy is " + PolicyString(ParsePullPolicy(arg).value);
    WriteThenLine(updated, l, cfg, faults, a);
    PerformAppend([WriteRecord(updated), LogLine(l)], UnsetEffects(updated, unset), cfg, faults, a);
    assert updated.(pullPolicy := "") == cleared;
    WriteThenLine(cleared, "Resetting pull policy to always", updated, faults, a + 1);
  }

  /** Every outcome of a run that gets past validation, in closed form: the
   *  error, the in-memory record left behind, the lines logged, the records made
   *  durable and the writes attempted, given which of the (at most two) write
   *  attempts fail. */
  lemma PlannedRun(cfg: Config, args: seq<string>, unset: bool, faults: map<nat, string>, a: nat)
    requires Plan(cfg, args, unset).Success?
    ensures |args| == 0 ==>
      var report := "Pull policy is " + PolicyString(ParsePullPolicy(cfg.pullPolicy).value);
      var cleared := cfg.(pullPolicy := "");
      Perform(Plan(cfg, args, unset).value, cfg, faults, a) ==
        if !unset then Run(None, cfg, [report], [], 0)
        else if a in faults then Run(Some(WriteError(faults, a)), cleared, [report], [], 1)
        else Run(None, cleared, [report, "Resetting pull policy to always"], [cleared], 1)
    ensures |args| == 1 && args[0] == cfg.pullPolicy ==>
      Perform(Plan(cfg, args, unset).value, cfg, faults, a) ==
        Run(None, cfg, ["Pull policy is already set to " + args[0]], [], 0)
    ensures |args| == 1 && args[0] != cfg.pullPolicy ==>
      var updated := cfg.(pullPolicy := args[0]);
      var cleared := cfg.(pullPolicy := "");
      var line := "New pull policy is " + PolicyString(ParsePullPolicy(args[0]).value);
      Perform(Plan(cfg, args, unset).value, cfg, faults, a) ==
        if a in faults then Run(Some(WriteError(faults, a)), updated, [], [], 1)
        else if !unset then Run(None, updated, [line], [updated], 1)
        else if a + 1 in faults then Run(Some(WriteError(faults, a + 1)), cleared, [line], [updated], 2)
        else Run(None, cleared, [line, "Resetting pull policy to always"], [updated, cleared], 2)
  {
    if |args| == 0 {
      ReportRun(cfg, unset, faults, a);
    } else if args[0] == cfg.pullPolicy {
      LineOnly("Pull policy is already set to " + args[0], cfg, faults, a);
    } else {
      assert args == [args[0]];
      SetRun(cfg, args[0], unset, faults, a);
    }
  }

  /** The command object: the configuration record captured when the command was
   *  built (each run edits it in place), the lines logged at info level, and the
   *  store it writes through. */
  class PullPolicyCommand {
    var cfg: Config
    var out: seq<string>
    const store: ConfigStore

    constructor (cfg: Config, store: ConfigStore)
      ensures this.cfg == cfg && out == [] && this.store == store
    {
      this.cfg := cfg;
      out := [];
      this.store := store;
    }

    /** Put record in memory and write it through the store; a failed write is
     *  returned wrapped with "writing to config", and the record stays in memory. */
    method Save(record: Config) returns (err: Option<Error>)
      modifies this, store
      ensures cfg == record && out == old(out)
      ensures store.attempts == old(store.attempts) + 1
      ensures old(store.attempts) in store.faults ==>
        err == Some(WriteError(store.faults, old(store.attempts))) &&
        store.durable == old(store.durable) && store.written == old(store.written)
      ensures old(store.attempts) !in store.faults ==>
        err == None && store.durable == record && store.written == old(store.written) + [record]
    {
      cfg := record;
      err := store.Write(cfg);
      if err.Some? {
        err := Some(Wrapped("writing to config", err.value));
      }
    }

    /** One invocation with positional arguments args and the --unset flag. */
    method Execute(args: seq<string>, unset: bool) returns (err: Option<Error>)
      modifies this, store
      ensures Plan(old(cfg), args, unset).Failure? ==>
        err == Some(Plan(old(cfg), args, unset).error) &&
        cfg == old(cfg) && out == old(out) && unchanged(store)
      ensures Plan(old(cfg), args, unset).Success? ==>
        var run := Perform(Plan(old(cfg), args, unset).value, old(cfg), store.faults, old(store.attempts));
        err == run.err && cfg == run.cfg && out == old(out) + run.lines &&
        store.written == old(store.written) + run.written &&
        store.attempts == old(store.attempts) + run.attempts &&
        store.durable == (if run.written == [] then old(store.durable) else run.written[|run.written| - 1])
      ensures forall i :: |old(store.written)| <= i < |store.written| ==>
        store.written[i] == old(cfg).(pullPolicy := store.written[i].pullPolicy) &&
        ParsePullPolicy(store.written[i].pullPolicy).Success?
      ensures store.durable == old(store.durable) || ParsePullPolicy(store.durable.pullPolicy).Success?
      ensures cfg.experimental == old(cfg.experimental) && cfg.others == old(cfg.others)
    {
      if |args| > 1 {
        return Some(TooManyArgs(1, |args|));
      }
      if |args| == 0 {
        var parsed := ParsePullPolicy(cfg.pullPolicy);
        if parsed.Failure? {
          return Some(Wrapped("parsing pull policy " + cfg.pullPolicy, parsed.error));
        }
        ReportRun(cfg, unset, store.faults, store.attempts);
        out := out + ["Pull policy is " + PolicyString(parsed.value)];
      } else {
        var newPullPolicy := args[0];
        if newPullPolicy == cfg.pullPolicy {
          LineOnly("Pull policy is already set to " + newPullPolicy, cfg, store.faults, store.attempts);
          out := out + ["Pull policy is already set to " + newPullPolicy];
          return None;
        }
        var parsed := ParsePullPolicy(newPullPolicy);
        if parsed.Failure? {
          return Some(Wrapped("parsing pull policy " + newPullPolicy, parsed.error));
        }
        assert args == [newPullPolicy];
        SetRun(cfg, newPullPolicy, unset, store.faults, store.attempts);
        err := Save(cfg.(pullPolicy := newPullPolicy));
        if err.Some? {
          return;
        }
        out := out + ["New pull policy is " + PolicyString(parsed.value)];
      }
      if unset {
        err := Save(cfg.(pullPolicy := ""));
        if err.Some? {
          return;
        }
        out := out + ["Resetting pull policy to always"];
      }
      return None;
    }
  }

  /** With an empty configuration the command reports "always" and writes nothing. */
  method ReportDefault() returns (err: Option<Error>, out: seq<string>, written: seq<Config>)
    ensures err == None && out == ["Pull policy is always"] && written == []
  {
    var initial := Config("", false, map[]);
    var store := new ConfigStore(initial, map[]);
    var cmd := new PullPolicyCommand(initial, store);
    PlannedRun(initial, [], false, map[], 0);
    err := cmd.Execute([], false);
    out, written := cmd.out, store.written;
    assert PolicyString(Always) == "always";
    assert "Pull policy is " + "always" == "Pull policy is always";
  }

  /** A persisted canonical name is reported as that policy. */
  method ReportPersisted(p: PullPolicy) returns (err: Option<Error>, out: seq<string>)
    ensures err == None && out == ["Pull policy is " + PolicyString(p)]
  {
    var initial := Config(PolicyString(p), true, map[]);
    var store := new ConfigStore(initial, map[]);
    var cmd := new PullPolicyCommand(initial, store);
    PlannedRun(initial, [], false, map[], 0);
    err := cmd.Execute([], false);
    out := cmd.out;
  }

  /** A persisted "blah" is reported as an invalid pull policy, and nothing is
   *  written even under --unset. */
  method ReportInvalidPersisted(unset: bool) returns (err: Option<Error>, written: seq<Config>)
    ensures err.Some? && EndsWith(Message(err.value), "invalid pull policy blah")
    ensures written == []
  {
    var initial := Config("blah", true, map[]);
    var store := new ConfigStore(initial, map[]);
    var cmd := new PullPolicyCommand(initial, store);
    InvalidPersistedStops(initial, unset);
    ghost var e := Plan(initial, [], unset).error;
    err := cmd.Execute([], unset);
    assert err == Some(e);
    assert "invalid pull policy " + "blah" == "invalid pull policy blah";
    written := store.written;
  }

  /** Setting "never" on an empty configuration persists "never"; a later
   *  invocation built from the persisted record reports it. */
  method SetThenReport() returns (setErr: Option<Error>, durable: Config, reportErr: Option<Error>, out: seq<string>)
    ensures setErr == None && reportErr == None
    ensures durable.pullPolicy == "never"
    ensures out == ["Pull policy is never"]
  {
    var initial := Config("", false, map[]);
    var store := new ConfigStore(initial, map[]);
    var cmd := new PullPolicyCommand(initial, store);
    PlannedRun(initial, ["never"], false, map[], 0);
    setErr := cmd.Execute(["never"], false);
    durable := store.durable;
    var next := new PullPolicyCommand(durable, store);
    PlannedRun(durable, [], false, map[], 1);
    reportErr := next.Execute([], false);
    out := next.out;
    assert "Pull policy is " + "never" == "Pull policy is never";
  }

  /** An invalid argument is rejected, naming it, and the store is untouched. */
  method SetInvalid() returns (err: Option<Error>, durable: Config, written: seq<Config>)
    ensures err.Some? && EndsWith(Message(err.value), "invalid pull policy invalid")
    ensures durable == Config("", false, map[]) && written == []
  {
    var initial := Config("", false, map[]);
    var store := new ConfigStore(initial, map[]);
    var cmd := new PullPolicyCommand(initial, store);
    InvalidArgumentStops(initial, "invalid", false);
    err := cmd.Execute(["invalid"], false);
    durable, written := store.durable, store.written;
  }

  /** --unset on a record holding "never" persists "" and keeps the other
   *  settings; reporting afterwards gives "always". */
  method UnsetThenReport() returns (unsetErr: Option<Error>, durable: Config, reportErr: Option<Error>, out: seq<string>)
    ensures unsetErr == None && reportErr == None
    ensures durable == Config("", true, map["default-builder" := "b"])
    ensures out == ["Pull policy is always"]
  {
    var initial := Config("never", true, map["default-builder" := "b"]);
    var store := new ConfigStore(initial, map[]);
    var cmd := new PullPolicyCommand(initial, store);
    PlannedRun(initial, [], true, map[], 0);
    unsetErr := cmd.Execute([], true);
    durable := store.durable;
    var next := new PullPolicyCommand(durable, store);
    PlannedRun(durable, [], false, map[], 1);
    reportErr := next.Execute([], false);
    out := next.out;
    assert "Pull policy is " + "always" == "Pull policy is always";
  }

  /** A set together with --unset makes two writes and ends with "". */
  method SetAndUnset() returns (err: Option<Error>, written: seq<Config>, durable: Config)
    ensures err == None
    ensures written == [Config("never", false, map[]), Config("", false, map[])]
    ensures durable.pullPolicy == ""
  {
    var initial := Config("", false, map[]);
    var store := new ConfigStore(initial, map[]);
    var cmd := new PullPolicyCommand(initial, store);
    PlannedRun(initial, ["never"], true, map[], 0);
    err := cmd.Execute(["never"], true);
    written, durable := store.written, store.durable;
  }

  /** When the write fails, the store's error is returned wrapped, nothing is
   *  logged, the unset step does not run and the durable record is unchanged. */
  method SetWithFailingWrite() returns (err: Option<Error>, out: seq<string>, durable: Config, written: seq<Config>, attempts: nat)
    ensures err.Some? && Message(err.value) == "writing to config: disk full"
    ensures out == [] && durable == Config("always", false, map[])
    ensures written == [] && attempts == 1
  {
    var initial := Config("always", false, map[]);
    var store := new ConfigStore(initial, map[0 := "disk full"]);
    var cmd := new PullPolicyCommand(initial, store);
    PlannedRun(initial, ["never"], true, map[0 := "disk full"], 0);
    err := cmd.Execute(["never"], true);
    out, durable, written, attempts := cmd.out, store.durable, store.written, store.attempts;
  }
}
