/** The argument pipeline of the tool registry: normalize, validate, repair once, ask for
    approval, run. */
module ToolRegistration {
  import opened Wrappers

  type Key = string

  datatype Value = StringValue(text: string) | IntValue(n: int) | FloatValue(x: real) | BoolValue(b: bool) | OtherValue(kind: nat)
  datatype Kind = StringKind | IntegerKind | FloatKind | BooleanKind | AnyKind
  datatype Param = Param(name: Key, kind: Kind)
  datatype Argument = Argument(name: Key, value: Value)

  datatype Definition = Definition(
    schema: seq<Param>, optional: set<Key>, aliases: map<Key, Key>, needsApproval: bool, critical: bool)

  type Arguments = map<Key, Value>

  // ------------------------------------------------------------------
  // Definitions and argument lists
  // ------------------------------------------------------------------

  /** The schema is a dictionary: no name occurs twice. */
  predicate DistinctParams(schema: seq<Param>) {
    forall i, j | 0 <= i < j < |schema| :: schema[i].name != schema[j].name
  }

  predicate DistinctNames(args: seq<Argument>) {
    forall i, j | 0 <= i < j < |args| :: args[i].name != args[j].name
  }

  function SchemaNames(schema: seq<Param>): set<Key> {
    set p | p in schema :: p.name
  }

  function Allowed(d: Definition): set<Key> {
    SchemaNames(d.schema) + d.optional
  }

  function Required(d: Definition): set<Key> {
    SchemaNames(d.schema) - d.optional
  }

  // ------------------------------------------------------------------
  // Normalization
  // ------------------------------------------------------------------

  datatype Normalization = Normalization(normalized: Arguments, resolved: seq<(Key, Key)>, stripped: seq<Key>)

  function NormalizeOne(d: Definition, n: Normalization, a: Argument): Normalization {
    if a.name in Allowed(d) then n.(normalized := n.normalized[a.name := a.value])
    else if a.name in d.aliases && d.aliases[a.name] !in n.normalized then
      n.(normalized := n.normalized[d.aliases[a.name] := a.value], resolved := n.resolved + [(a.name, d.aliases[a.name])])
    else n.(stripped := n.stripped + [a.name])
  }

  function Normalized(d: Definition, args: seq<Argument>): Normalization {
    if args == [] then Normalization(map[], [], [])
    else NormalizeOne(d, Normalized(d, args[..|args| - 1]), args[|args| - 1])
  }

  /** Whether an argument stands for a name that is not its own. */
  predicate IsAliasFor(d: Definition, a: Argument, name: Key) {
    a.name !in Allowed(d) && a.name in d.aliases && d.aliases[a.name] == name
  }

  /** The value a caller gave a name: under the name itself if that is allowed, else under
      the first of its aliases. */
  function Given(d: Definition, args: seq<Argument>, name: Key): Option<Value> {
    var direct := Directly(d, args, name);
    if direct.Some? then direct else ByAlias(d, args, name)
  }

  function Directly(d: Definition, args: seq<Argument>, name: Key): Option<Value> {
    if args == [] || name !in Allowed(d) then None
    else if args[0].name == name then Some(args[0].value)
    else Directly(d, args[1..], name)
  }

  function ByAlias(d: Definition, args: seq<Argument>, name: Key): Option<Value> {
    if args == [] then None
    else if IsAliasFor(d, args[0], name) then Some(args[0].value)
    else ByAlias(d, args[1..], name)
  }

  lemma {:induction false} DirectlyPush(d: Definition, args: seq<Argument>, a: Argument, name: Key)
    ensures Directly(d, args + [a], name) ==
      (if Directly(d, args, name).Some? then Directly(d, args, name)
       else if name in Allowed(d) && a.name == name then Some(a.value) else None)
  {
    hide Allowed;
    if args == [] {
      assert (args + [a])[1..] == [];
    } else {
      assert (args + [a])[1..] == args[1..] + [a];
      DirectlyPush(d, args[1..], a, name);
    }
  }

  lemma {:induction false} ByAliasPush(d: Definition, args: seq<Argument>, a: Argument, name: Key)
    ensures ByAlias(d, args + [a], name) ==
      (if ByAlias(d, args, name).Some? then ByAlias(d, args, name)
       else if IsAliasFor(d, a, name) then Some(a.value) else None)
  {
    hide IsAliasFor;
    if args == [] {
      assert (args + [a])[1..] == [];
    } else {
      assert (args + [a])[1..] == args[1..] + [a];
      ByAliasPush(d, args[1..], a, name);
    }
  }

  lemma {:induction false} DirectlyListed(d: Definition, args: seq<Argument>, name: Key)
    ensures Directly(d, args, name).Some? ==> exists i | 0 <= i < |args| :: args[i].name == name
  {
    hide Allowed;
    if args != [] && Directly(d, args, name).Some? && args[0].name != name {
      DirectlyListed(d, args[1..], name);
      var i :| 0 <= i < |args[1..]| && args[1..][i].name == name;
      assert args[i + 1].name == name;
    }
  }

  /** In every order of the arguments, a canonical name wins over its aliases, and the first
      alias over the others; nothing else gets in. */
  lemma {:induction false} CanonicalWins(d: Definition, args: seq<Argument>, name: Key)
    requires DistinctNames(args)
    ensures var n := Normalized(d, args).normalized;
      && (name in n <==> Given(d, args, name).Some?)
      && (name in n ==> n[name] == Given(d, args, name).value)
  {
    hide Allowed;
    if args != [] {
      var k := |args| - 1;
      var a := args[k];
      assert args == args[..k] + [a];
      CanonicalWins(d, args[..k], name);
      DirectlyPush(d, args[..k], a, name);
      ByAliasPush(d, args[..k], a, name);
      DirectlyListed(d, args[..k], name);
    }
  }

  /** Every alias that is not a name itself stands for an allowed name. */
  predicate WellFormedAliases(d: Definition) {
    forall a | a in d.aliases && a !in Allowed(d) :: d.aliases[a] in Allowed(d)
  }

  lemma {:induction false} NormalizedIsAllowed(d: Definition, args: seq<Argument>)
    requires WellFormedAliases(d)
    ensures Normalized(d, args).normalized.Keys <= Allowed(d)
  {
    hide Allowed;
    if args != [] {
      NormalizedIsAllowed(d, args[..|args| - 1]);
    }
  }

  predicate OnlyAllowed(d: Definition, args: seq<Argument>) {
    Normalized(d, args).normalized.Keys <= Allowed(d)
  }

  /** Only allowed names come out of every normalization exactly if the table of aliases
      is well-formed. */
  lemma OnlyAllowedIffWellFormed(d: Definition)
    ensures WellFormedAliases(d) <==> forall args: seq<Argument> :: DistinctNames(args) ==> OnlyAllowed(d, args)
  {
    hide Allowed;
    if WellFormedAliases(d) {
      forall args: seq<Argument> | DistinctNames(args) ensures OnlyAllowed(d, args) {
        NormalizedIsAllowed(d, args);
      }
    } else {
      var a :| a in d.aliases && a !in Allowed(d) && d.aliases[a] !in Allowed(d);
      var args := [Argument(a, BoolValue(true))];
      assert args[..0] == [];
      assert Normalized(d, args).normalized == map[d.aliases[a] := BoolValue(true)];
      assert DistinctNames(args) && !OnlyAllowed(d, args);
    }
  }

  /** A listing of a dictionary: its entries in any order. */
  predicate Lists(args: seq<Argument>, m: Arguments) {
    && DistinctNames(args)
    && (forall i | 0 <= i < |args| :: args[i].name in m && m[args[i].name] == args[i].value)
    && (forall k | k in m :: exists i | 0 <= i < |args| :: args[i].name == k)
  }

  lemma {:induction false} AllowedPassThrough(d: Definition, args: seq<Argument>, m: Arguments)
    requires DistinctNames(args)
    requires forall i | 0 <= i < |args| :: args[i].name in Allowed(d) && args[i].name in m && m[args[i].name] == args[i].value
    ensures var n := Normalized(d, args);
      && n.resolved == [] && n.stripped == []
      && (forall k | k in n.normalized :: k in m && n.normalized[k] == m[k])
      && (forall i | 0 <= i < |args| :: args[i].name in n.normalized)
  {
    hide Allowed;
    if args != [] {
      AllowedPassThrough(d, args[..|args| - 1], m);
    }
  }

  /** Normalizing what was normalized, in any order, changes nothing. */
  lemma NormalizationIsIdempotent(d: Definition, args: seq<Argument>, again: seq<Argument>)
    requires WellFormedAliases(d) && Lists(again, Normalized(d, args).normalized)
    ensures Normalized(d, again) == Normalization(Normalized(d, args).normalized, [], [])
  {
    hide Allowed;
    var m := Normalized(d, args).normalized;
    NormalizedIsAllowed(d, args);
    forall i | 0 <= i < |again| ensures again[i].name in Allowed(d) {
      assert again[i].name in m.Keys;
    }
    AllowedPassThrough(d, again, m);
    var n := Normalized(d, again).normalized;
    forall k | k in m ensures k in n {
      var i :| 0 <= i < |again| && again[i].name == k;
    }
    assert n == m;
  }

  // ------------------------------------------------------------------
  // Validation
  // ------------------------------------------------------------------

  predicate Matches(v: Value, kind: Kind) {
    match kind
    case StringKind => v.StringValue?
    case IntegerKind => v.IntValue?
    case FloatKind => v.IntValue? || v.FloatValue?
    case BooleanKind => v.BoolValue?
    case AnyKind => true
  }

  datatype ToolError = UnknownArguments(names: set<Key>) | MissingArguments(names: set<Key>) | WrongType(name: Key, kind: Kind)

  predicate IllTyped(p: Param, args: Arguments) {
    p.name in args && !Matches(args[p.name], p.kind)
  }

  function FirstIllTyped(schema: seq<Param>, args: Arguments): Option<Param> {
    if schema == [] then None
    else if IllTyped(schema[0], args) then Some(schema[0])
    else FirstIllTyped(schema[1..], args)
  }

  function Missing(d: Definition, args: Arguments): set<Key> {
    Required(d) - args.Keys
  }

  function Check(d: Definition, args: Arguments): Option<ToolError> {
    if args.Keys - Allowed(d) != {} then Some(UnknownArguments(args.Keys - Allowed(d)))
    else if Missing(d, args) != {} then Some(MissingArguments(Missing(d, args)))
    else
      var p := FirstIllTyped(d.schema, args);
      if p.None? then None else Some(WrongType(p.value.name, p.value.kind))
  }

  predicate WellTyped(d: Definition, args: Arguments) {
    forall i | 0 <= i < |d.schema| :: !IllTyped(d.schema[i], args)
  }

  /** Arguments a handler may be given: allowed, complete, and of the declared types. */
  predicate IsValid(d: Definition, args: Arguments) {
    args.Keys <= Allowed(d) && Required(d) <= args.Keys && WellTyped(d, args)
  }

  lemma {:induction false} FirstIllTypedIsFirst(schema: seq<Param>, args: Arguments)
    ensures var p := FirstIllTyped(schema, args);
      && (p.None? <==> forall i | 0 <= i < |schema| :: !IllTyped(schema[i], args))
      && (p.Some? ==> exists i | 0 <= i < |schema| ::
            schema[i] == p.value && IllTyped(schema[i], args) && forall j | 0 <= j < i :: !IllTyped(schema[j], args))
  {
    hide IllTyped;
    if schema != [] && !IllTyped(schema[0], args) {
      FirstIllTypedIsFirst(schema[1..], args);
      assert forall i | 0 < i < |schema| :: schema[i] == schema[1..][i - 1];
      if FirstIllTyped(schema, args).Some? {
        var p := FirstIllTyped(schema, args).value;
        var i :| 0 <= i < |schema[1..]| && schema[1..][i] == p && IllTyped(schema[1..][i], args)
          && forall j | 0 <= j < i :: !IllTyped(schema[1..][j], args);
        assert schema[i + 1] == p;
      }
    }
  }

  lemma NoneLeft(a: set<Key>, b: set<Key>)
    ensures a - b == {} <==> a <= b
  {
    assert forall x :: x in a && x !in b ==> x in a - b;
  }

  /** Validation passes exactly the valid arguments. */
  lemma CheckIsExact(d: Definition, args: Arguments)
    ensures Check(d, args).None? <==> IsValid(d, args)
  {
    hide Allowed, Required, IllTyped;
    FirstIllTypedIsFirst(d.schema, args);
    NoneLeft(args.Keys, Allowed(d));
    NoneLeft(Required(d), args.Keys);
  }

  /** Of valid arguments exactly the optional ones can be left out. */
  lemma OptionalCanBeLeftOut(d: Definition, args: Arguments, k: Key)
    requires IsValid(d, args) && k in args
    ensures IsValid(d, args - {k}) <==> k in d.optional
  {
    assert (args - {k}).Keys == args.Keys - {k};
  }

  /** And exactly those can be added that are declared or optional, with a value that passes. */
  lemma DeclaredCanBeAdded(d: Definition, args: Arguments, k: Key, v: Value)
    requires IsValid(d, args) && k !in args
    ensures IsValid(d, args[k := v]) <==>
      && (k in d.optional || exists i :: 0 <= i < |d.schema| && d.schema[i].name == k)
      && forall i | 0 <= i < |d.schema| && d.schema[i].name == k :: Matches(v, d.schema[i].kind)
  {
    var more := args[k := v];
    assert more.Keys == args.Keys + {k};
    hide Matches;
    forall i | 0 <= i < |d.schema|
      ensures IllTyped(d.schema[i], more) <==> d.schema[i].name == k && !Matches(v, d.schema[i].kind)
    {
      assert !IllTyped(d.schema[i], args);
    }
    hide IllTyped;
  }

  // ------------------------------------------------------------------
  // Repair
  // ------------------------------------------------------------------

  predicate IsNumeric(v: Value) {
    v.IntValue? || v.FloatValue? || v.BoolValue?
  }

  predicate IsNumberForText(p: Param, args: Arguments) {
    p.kind.StringKind? && p.name in args && IsNumeric(args[p.name])
  }

  function FirstNumberForText(schema: seq<Param>, args: Arguments): (p: Option<Param>)
    ensures p.Some? ==> IsNumberForText(p.value, args)
  {
    if schema == [] then None
    else if IsNumberForText(schema[0], args) then Some(schema[0])
    else FirstNumberForText(schema[1..], args)
  }

  /** The one repair of a failed validation; `toText` writes a number as a string. */
  function Repaired(d: Definition, args: Arguments, e: ToolError, toText: Value -> string): Option<Arguments> {
    match e
    case UnknownArguments(_) => None
    case MissingArguments(names) =>
      if names == {"mode"} && "search" in args then Some(args["mode" := StringValue("replace")])
      else if names == {"mode"} && "content" in args then Some(args["mode" := StringValue("overwrite")])
      else if names == {"content"} && "search" in args && "mode" !in args then Some(args["mode" := StringValue("replace")])
      else None
    case WrongType(_, kind) =>
      var p := FirstNumberForText(d.schema, args);
      if kind.StringKind? && p.Some? then Some(args[p.value.name := StringValue(toText(args[p.value.name]))]) else None
  }

  // ------------------------------------------------------------------
  // Execution
  // ------------------------------------------------------------------

  /** How a call ends: the handler runs only in the last case. */
  datatype Outcome = UnknownTool | Refused(error: ToolError) | ApprovalNeeded | Ran(args: Arguments)

  function Gate(d: Definition, args: Arguments, approved: bool): Outcome {
    if d.needsApproval && !approved then ApprovalNeeded else Ran(args)
  }

  function Executed(d: Definition, args: seq<Argument>, approved: bool, toText: Value -> string): Outcome {
    var n := Normalized(d, args).normalized;
    match Check(d, n)
    case None => Gate(d, n, approved)
    case Some(e) =>
      match Repaired(d, n, e, toText)
      case None => Refused(e)
      case Some(r) =>
        match Check(d, r)
        case None => Gate(d, r, approved)
        case Some(again) => Refused(again)
  }

  datatype Metrics = Metrics(
    received: nat, normalized: nat, repairs: nat, repairFailures: nat, unknownArguments: nat, invalidArguments: nat)

  /** The counters after a normalization. */
  function CountNormalization(m: Metrics, n: Normalization): Metrics {
    m.(unknownArguments := m.unknownArguments + |n.stripped|,
       normalized := m.normalized + (if n.resolved != [] || n.stripped != [] then 1 else 0))
  }

  function CountExecution(m: Metrics, d: Definition, args: seq<Argument>, toText: Value -> string): Metrics {
    var n := Normalized(d, args);
    var c := CountNormalization(m, n);
    match Check(d, n.normalized)
    case None => c
    case Some(e) =>
      match Repaired(d, n.normalized, e, toText)
      case None => c.(repairFailures := c.repairFailures + 1, invalidArguments := c.invalidArguments + 1)
      case Some(r) =>
        c.(repairs := c.repairs + 1, invalidArguments := c.invalidArguments + (if Check(d, r).None? then 0 else 1))
  }

  class ToolRegistry {
    var tools: map<Key, Definition>
    var metrics: Metrics

    constructor ()
      ensures tools == map[] && metrics == Metrics(0, 0, 0, 0, 0, 0) && Valid()
    {
      tools, metrics := map[], Metrics(0, 0, 0, 0, 0, 0);
    }

    /** No registered tool is of critical risk. */
    ghost predicate Valid()
      reads this
    {
      forall name | name in tools :: !tools[name].critical
    }

    method Register(name: Key, d: Definition) returns (accepted: bool)
      requires Valid()
      modifies this`tools
      ensures Valid()
      ensures accepted == !d.critical
      ensures tools == if accepted then old(tools)[name := d] else old(tools)
    {
      accepted := !d.critical;
      if accepted {
        tools := tools[name := d];
      }
    }

    method NormalizeArguments(d: Definition, args: seq<Argument>) returns (n: Normalization)
      modifies this`metrics
      ensures n == Normalized(d, args)
      ensures metrics == CountNormalization(old(metrics), n)
    {
      hide Allowed;
      n := Normalization(map[], [], []);
      for i := 0 to |args|
        invariant n == Normalized(d, args[..i])
        invariant metrics == old(metrics).(unknownArguments := old(metrics).unknownArguments + |n.stripped|)
      {
        assert args[..i + 1][..i] == args[..i];
        var a := args[i];
        if a.name in Allowed(d) {
          n := n.(normalized := n.normalized[a.name := a.value]);
        } else if a.name in d.aliases {
          var canonical := d.aliases[a.name];
          if canonical in n.normalized {
            n := n.(stripped := n.stripped + [a.name]);
            metrics := metrics.(unknownArguments := metrics.unknownArguments + 1);
          } else {
            n := n.(normalized := n.normalized[canonical := a.value], resolved := n.resolved + [(a.name, canonical)]);
          }
        } else {
          n := n.(stripped := n.stripped + [a.name]);
          metrics := metrics.(unknownArguments := metrics.unknownArguments + 1);
        }
      }
      assert args[..|args|] == args;
      if |n.resolved| > 0 || |n.stripped| > 0 {
        metrics := metrics.(normalized := metrics.normalized + 1);
      }
    }

    method ValidateArguments(d: Definition, args: Arguments) returns (e: Option<ToolError>)
      ensures e == Check(d, args)
    {
      var unknown := args.Keys - Allowed(d);
      if unknown != {} {
        return Some(UnknownArguments(unknown));
      }
      var missing := Required(d) - args.Keys;
      if missing != {} {
        return Some(MissingArguments(missing));
      }
      for i := 0 to |d.schema|
        invariant FirstIllTyped(d.schema[i..], args) == FirstIllTyped(d.schema, args)
      {
        assert d.schema[i..][1..] == d.schema[i + 1..];
        var p := d.schema[i];
        if p.name in args && !Matches(args[p.name], p.kind) {
          return Some(WrongType(p.name, p.kind));
        }
      }
      e := None;
    }

    method AttemptArgumentRepair(d: Definition, args: Arguments, e: ToolError, toText: Value -> string)
      returns (r: Option<Arguments>)
      modifies this`metrics
      ensures r == Repaired(d, args, e, toText)
      ensures metrics == if r.Some? then old(metrics).(repairs := old(metrics).repairs + 1)
                         else old(metrics).(repairFailures := old(metrics).repairFailures + 1)
    {
      r := None;
      if e.MissingArguments? {
        if e.names == {"mode"} && "search" in args {
          r := Some(args["mode" := StringValue("replace")]);
        } else if e.names == {"mode"} && "content" in args {
          r := Some(args["mode" := StringValue("overwrite")]);
        } else if e.names == {"content"} && "search" in args && "mode" !in args {
          r := Some(args["mode" := StringValue("replace")]);
        }
      }
      if e.WrongType? && e.kind.StringKind? {
        var p := FindNumberForText(d.schema, args);
        if p.Some? {
          r := Some(args[p.value.name := StringValue(toText(args[p.value.name]))]);
        }
      }
      if r.Some? {
        metrics := metrics.(repairs := metrics.repairs + 1);
      } else {
        metrics := metrics.(repairFailures := metrics.repairFailures + 1);
      }
    }

    method Execute(name: Key, args: seq<Argument>, approved: bool, toText: Value -> string) returns (o: Outcome)
      modifies this`metrics
      ensures o == if name in tools then Executed(tools[name], args, approved, toText) else UnknownTool
      ensures var m := old(metrics).(received := old(metrics).received + 1);
        metrics == if name in tools then CountExecution(m, tools[name], args, toText) else m
    {
      hide Normalized, Check, Repaired;
      metrics := metrics.(received := metrics.received + 1);
      if name !in tools {
        return UnknownTool;
      }
      var d := tools[name];
      var n := NormalizeArguments(d, args);
      var checked := n.normalized;
      var e := ValidateArguments(d, checked);
      if e.Some? {
        var repaired := AttemptArgumentRepair(d, checked, e.value, toText);
        if repaired.None? {
          metrics := metrics.(invalidArguments := metrics.invalidArguments + 1);
          return Refused(e.value);
        }
        checked := repaired.value;
        e := ValidateArguments(d, checked);
        if e.Some? {
          metrics := metrics.(invalidArguments := metrics.invalidArguments + 1);
          return Refused(e.value);
        }
      }
      if d.needsApproval && !approved {
        return ApprovalNeeded;
      }
      o := Ran(checked);
    }
  }

  method FindNumberForText(schema: seq<Param>, args: Arguments) returns (p: Option<Param>)
    ensures p == FirstNumberForText(schema, args)
    ensures p.Some? ==> p.value.name in args
  {
    for i := 0 to |schema|
      invariant FirstNumberForText(schema[i..], args) == FirstNumberForText(schema, args)
    {
      assert schema[i..][1..] == schema[i + 1..];
      if schema[i].kind.StringKind? && schema[i].name in args && IsNumeric(args[schema[i].name]) {
        return Some(schema[i]);
      }
    }
    p := None;
  }

  // ------------------------------------------------------------------
  // What reaches a handler
  // ------------------------------------------------------------------

  /** A handler runs only with valid arguments, and with approval where that is needed; and
      its arguments are the normalized ones but for at most one entry. */
  lemma HandlerArgumentsAreValid(d: Definition, args: seq<Argument>, approved: bool, toText: Value -> string)
    requires Executed(d, args, approved, toText).Ran?
    ensures var run := Executed(d, args, approved, toText).args;
      var n := Normalized(d, args).normalized;
      && IsValid(d, run)
      && (d.needsApproval ==> approved)
      && (run == n || exists k :: k in run && run == n[k := run[k]])
  {
    hide Normalized, Check, IsValid;
    var n := Normalized(d, args).normalized;
    CheckIsExact(d, n);
    if Check(d, n).Some? {
      var r := Repaired(d, n, Check(d, n).value, toText).value;
      CheckIsExact(d, r);
      RepairChangesOne(d, n, Check(d, n).value, toText);
    }
  }

  lemma RepairChangesOne(d: Definition, args: Arguments, e: ToolError, toText: Value -> string)
    requires Repaired(d, args, e, toText).Some?
    ensures var r := Repaired(d, args, e, toText).value;
      exists k :: k in r && r == args[k := r[k]]
  {
    var r := Repaired(d, args, e, toText).value;
    if e.MissingArguments? {
      assert "mode" in r && r == args["mode" := r["mode"]];
    } else {
      var k := FirstNumberForText(d.schema, args).value.name;
      assert k in r && r == args[k := r[k]];
    }
  }

  /** Only the mode is missing, it can be told from the other arguments, and all else is fine. */
  predicate LacksOnlyMode(d: Definition, args: Arguments) {
    && args.Keys <= Allowed(d)
    && Missing(d, args) == {"mode"}
    && ("search" in args || "content" in args)
    && WellTyped(d, args["mode" := StringValue("")])
  }

  /** One string argument is a number, and all else is fine. */
  predicate HasOneNumberForText(d: Definition, args: Arguments) {
    && args.Keys <= Allowed(d)
    && Required(d) <= args.Keys
    && exists i | 0 <= i < |d.schema| ::
         && IsNumberForText(d.schema[i], args)
         && forall j | 0 <= j < |d.schema| && j != i :: !IllTyped(d.schema[j], args)
  }

  predicate IsAcceptable(d: Definition, args: Arguments) {
    IsValid(d, args) || LacksOnlyMode(d, args) || HasOneNumberForText(d, args)
  }

  lemma SameTypes(d: Definition, args: Arguments, a: string, b: string)
    ensures WellTyped(d, args["mode" := StringValue(a)]) <==> WellTyped(d, args["mode" := StringValue(b)])
  {
    forall i | 0 <= i < |d.schema|
      ensures IllTyped(d.schema[i], args["mode" := StringValue(a)]) <==> IllTyped(d.schema[i], args["mode" := StringValue(b)])
    {
    }
  }

  /** A mode that was filled in makes the arguments valid exactly if only that was wrong. */
  lemma ModeRepair(d: Definition, args: Arguments, toText: Value -> string)
    requires Check(d, args).Some? && Check(d, args).value.MissingArguments?
    ensures LacksOnlyMode(d, args) <==>
            var r := Repaired(d, args, Check(d, args).value, toText);
            r.Some? && IsValid(d, r.value)
  {
    NoneLeft(args.Keys, Allowed(d));
    assert Check(d, args).value.names == Missing(d, args);
    var mode := Missing(d, args) == {"mode"};
    assert mode ==> "mode" in Required(d) && "mode" !in args;
    assert mode ==> Required(d) <= args.Keys + {"mode"};
    assert Missing(d, args) == {"content"} ==> "content" in Required(d) && "content" !in args;
    assert Required(d) <= Allowed(d);
    hide Allowed, Required, Missing, WellTyped;
    SameTypes(d, args, "", "replace");
    SameTypes(d, args, "", "overwrite");
    assert args["mode" := StringValue("replace")].Keys == args.Keys + {"mode"};
    assert args["mode" := StringValue("overwrite")].Keys == args.Keys + {"mode"};
  }

  lemma {:induction false} FirstNumberIsFirst(schema: seq<Param>, args: Arguments, i: nat)
    requires i < |schema| && IsNumberForText(schema[i], args)
    requires forall j | 0 <= j < i :: !IsNumberForText(schema[j], args)
    ensures FirstNumberForText(schema, args) == Some(schema[i])
  {
    hide IsNumberForText;
    if i > 0 {
      assert schema[1..][i - 1] == schema[i] && forall j | 0 <= j < i - 1 :: schema[1..][j] == schema[j + 1];
      FirstNumberIsFirst(schema[1..], args, i - 1);
    }
  }

  lemma {:induction false} FirstNumberIsListed(schema: seq<Param>, args: Arguments) returns (i: nat)
    requires FirstNumberForText(schema, args).Some?
    ensures i < |schema| && FirstNumberForText(schema, args) == Some(schema[i])
  {
    hide IsNumberForText;
    i := 0;
    if !IsNumberForText(schema[0], args) {
      var j := FirstNumberIsListed(schema[1..], args);
      i := j + 1;
    }
  }

  lemma NumberIsIllTyped(p: Param, args: Arguments)
    requires IsNumberForText(p, args)
    ensures IllTyped(p, args)
  {
  }

  /** After a parameter's value became a string, only the other parameters can be ill-typed. */
  lemma TypesAfterText(d: Definition, args: Arguments, i: nat, text: string)
    requires DistinctParams(d.schema) && i < |d.schema| && d.schema[i].kind.StringKind?
    ensures WellTyped(d, args[d.schema[i].name := StringValue(text)]) <==>
            forall j | 0 <= j < |d.schema| && j != i :: !IllTyped(d.schema[j], args)
  {
    var r := args[d.schema[i].name := StringValue(text)];
    forall j | 0 <= j < |d.schema|
      ensures IllTyped(d.schema[j], r) <==> j != i && IllTyped(d.schema[j], args)
    {
      assert j != i ==> d.schema[j].name != d.schema[i].name;
    }
  }

  /** A number that became a string makes the arguments valid exactly if only that was wrong. */
  lemma NumberRepair(d: Definition, args: Arguments, toText: Value -> string)
    requires DistinctParams(d.schema) && Check(d, args).Some? && Check(d, args).value.WrongType?
    ensures HasOneNumberForText(d, args) <==>
            var r := Repaired(d, args, Check(d, args).value, toText);
            r.Some? && IsValid(d, r.value)
  {
    NoneLeft(args.Keys, Allowed(d));
    NoneLeft(Required(d), args.Keys);
    FirstIllTypedIsFirst(d.schema, args);
    assert args.Keys <= Allowed(d) && Required(d) <= args.Keys;
    var e := Check(d, args).value;
    hide Allowed, Required, Missing, WellTyped, IsNumberForText, IllTyped;
    if HasOneNumberForText(d, args) {
      var i :| 0 <= i < |d.schema| && IsNumberForText(d.schema[i], args)
        && forall j | 0 <= j < |d.schema| && j != i :: !IllTyped(d.schema[j], args);
      OnlyOneIllTyped(d, args, i);
      var name := d.schema[i].name;
      TypesAfterText(d, args, i, toText(args[name]));
      assert args[name := StringValue(toText(args[name]))].Keys == args.Keys;
    }
    var r := Repaired(d, args, e, toText);
    if r.Some? && IsValid(d, r.value) {
      var i := FirstNumberIsListed(d.schema, args);
      NumberNames(d.schema[i], args);
      TypesAfterText(d, args, i, toText(args[d.schema[i].name]));
    }
  }

  lemma NumberNames(p: Param, args: Arguments)
    requires IsNumberForText(p, args)
    ensures p.kind.StringKind? && p.name in args
  {
  }

  lemma OnlyOneIllTyped(d: Definition, args: Arguments, i: nat)
    requires i < |d.schema| && IsNumberForText(d.schema[i], args)
    requires forall j | 0 <= j < |d.schema| && j != i :: !IllTyped(d.schema[j], args)
    ensures FirstNumberForText(d.schema, args) == Some(d.schema[i])
    ensures FirstIllTyped(d.schema, args) == Some(d.schema[i])
    ensures d.schema[i].kind.StringKind? && d.schema[i].name in args
  {
    FirstIllTypedIsFirst(d.schema, args);
    NumberIsIllTyped(d.schema[i], args);
    forall j | 0 <= j < i ensures !IsNumberForText(d.schema[j], args) {
      if IsNumberForText(d.schema[j], args) {
        NumberIsIllTyped(d.schema[j], args);
      }
    }
    FirstNumberIsFirst(d.schema, args, i);
  }

  /** The handler runs exactly if approval is in order and the normalized arguments are
      valid, or lack only a mode that the others tell, or have a single number for a text.
      In particular the repair of a missing content never helps. */
  lemma RunsExactlyIfAcceptable(d: Definition, args: seq<Argument>, approved: bool, toText: Value -> string)
    requires DistinctParams(d.schema)
    ensures Executed(d, args, approved, toText).Ran? <==>
            (d.needsApproval ==> approved) && IsAcceptable(d, Normalized(d, args).normalized)
  {
    var n := Normalized(d, args).normalized;
    CheckIsExact(d, n);
    OneFault(d, n);
    hide Normalized, Check, IsValid, LacksOnlyMode, HasOneNumberForText;
    if Check(d, n).Some? {
      var e := Check(d, n).value;
      var r := Repaired(d, n, e, toText);
      if r.Some? {
        CheckIsExact(d, r.value);
      }
      match e {
        case UnknownArguments(_) =>
        case MissingArguments(_) => ModeRepair(d, n, toText);
        case WrongType(_, _) => NumberRepair(d, n, toText);
      }
    }
  }

  /** Which check fails says which repair can apply. */
  lemma OneFault(d: Definition, args: Arguments)
    ensures LacksOnlyMode(d, args) ==> Check(d, args).Some? && Check(d, args).value.MissingArguments?
    ensures HasOneNumberForText(d, args) ==> Check(d, args).Some? && Check(d, args).value.WrongType?
  {
    NoneLeft(args.Keys, Allowed(d));
    NoneLeft(Required(d), args.Keys);
    hide Allowed, Required;
    if HasOneNumberForText(d, args) {
      var i :| 0 <= i < |d.schema| && IsNumberForText(d.schema[i], args);
      NumberIsIllTyped(d.schema[i], args);
      FirstIllTypedIsFirst(d.schema, args);
    }
  }

  /** Filling in a mode when the content is missing is futile: the content is still missing. */
  lemma ContentRepairIsFutile(d: Definition, args: seq<Argument>, approved: bool, toText: Value -> string)
    requires var n := Normalized(d, args).normalized;
      Check(d, n) == Some(MissingArguments({"content"}))
    ensures Executed(d, args, approved, toText).Refused?
  {
    var n := Normalized(d, args).normalized;
    assert "content" in Missing(d, n);
    assert Repaired(d, n, MissingArguments({"content"}), toText).Some? ==>
        "content" in Missing(d, Repaired(d, n, MissingArguments({"content"}), toText).value);
  }

  // ------------------------------------------------------------------
  // What a handler is given, what a caller is told, and what is counted
  // ------------------------------------------------------------------

  /** Whenever a handler runs it is given the normalized arguments; with the mode that
      searching or plain content stands for, if only the mode was missing; and with the one
      number written as a text, if one stood for a text. */
  lemma HandlerIsGiven(d: Definition, args: seq<Argument>, approved: bool, toText: Value -> string)
    requires DistinctParams(d.schema) && Executed(d, args, approved, toText).Ran?
    ensures var run := Executed(d, args, approved, toText).args;
      var n := Normalized(d, args).normalized;
      if IsValid(d, n) then run == n
      else if LacksOnlyMode(d, n) then
        run == n["mode" := StringValue(if "search" in n then "replace" else "overwrite")]
      else
        exists i | 0 <= i < |d.schema| ::
          && d.schema[i].kind.StringKind? && d.schema[i].name in n && IsNumeric(n[d.schema[i].name])
          && run == n[d.schema[i].name := StringValue(toText(n[d.schema[i].name]))]
          && forall j | 0 <= j < |d.schema| && j != i :: !IllTyped(d.schema[j], n)
  {
    var n := Normalized(d, args).normalized;
    CheckIsExact(d, n);
    RunsExactlyIfAcceptable(d, args, approved, toText);
    OneFault(d, n);
    hide Normalized, IsValid, IllTyped, IsNumeric;
    if LacksOnlyMode(d, n) {
      LackedMode(d, n, toText);
    } else if HasOneNumberForText(d, n) {
      hide Check;
      var i :| 0 <= i < |d.schema| && IsNumberForText(d.schema[i], n)
        && forall j | 0 <= j < |d.schema| && j != i :: !IllTyped(d.schema[j], n);
      OnlyOneIllTyped(d, n, i);
      NumberNames(d.schema[i], n);
    }
  }

  lemma LackedMode(d: Definition, args: Arguments, toText: Value -> string)
    requires LacksOnlyMode(d, args)
    ensures Repaired(d, args, MissingArguments({"mode"}), toText) ==
            Some(args["mode" := StringValue(if "search" in args then "replace" else "overwrite")])
    ensures Check(d, args) == Some(MissingArguments({"mode"}))
  {
    NoneLeft(args.Keys, Allowed(d));
  }

  /** What an error says of the arguments it was found in: the names that are not allowed;
      else those that are missing; else the first parameter of the wrong type. */
  ghost predicate IsTrueOf(d: Definition, args: Arguments, e: ToolError) {
    var unknown, missing := args.Keys - Allowed(d), Required(d) - args.Keys;
    match e
    case UnknownArguments(names) => names == unknown != {}
    case MissingArguments(names) => unknown == {} && names == missing != {}
    case WrongType(name, kind) =>
      && unknown == {} && missing == {}
      && exists i | 0 <= i < |d.schema| ::
           && d.schema[i] == Param(name, kind) && IllTyped(d.schema[i], args)
           && forall j | 0 <= j < i :: !IllTyped(d.schema[j], args)
  }

  lemma CheckIsTrue(d: Definition, args: Arguments)
    ensures Check(d, args).Some? ==> IsTrueOf(d, args, Check(d, args).value)
  {
    FirstIllTypedIsFirst(d.schema, args);
    NoneLeft(args.Keys, Allowed(d));
    hide IllTyped;
  }

  predicate DiffersInOne(args: Arguments, r: Arguments) {
    exists k | k in r :: r == args[k := r[k]]
  }

  /** A refused call is told what is wrong: with the normalized arguments, or with those
      that differ from them by the one repair. */
  lemma RefusalIsTrue(d: Definition, args: seq<Argument>, approved: bool, toText: Value -> string)
    requires Executed(d, args, approved, toText).Refused?
    ensures var e := Executed(d, args, approved, toText).error;
      var n := Normalized(d, args).normalized;
      && !IsValid(d, n)
      && (n.Keys - Allowed(d) != {} ==> IsTrueOf(d, n, e))
      && (IsTrueOf(d, n, e) || exists r: Arguments :: DiffersInOne(n, r) && !IsValid(d, r) && IsTrueOf(d, r, e))
  {
    hide Normalized, IsTrueOf, Allowed, IsValid;
    var n := Normalized(d, args).normalized;
    var e := Executed(d, args, approved, toText).error;
    CheckIsExact(d, n);
    CheckIsTrue(d, n);
    if e != Check(d, n).value {
      RepairChangesOne(d, n, Check(d, n).value, toText);
      var r := Repaired(d, n, Check(d, n).value, toText).value;
      CheckIsExact(d, r);
      CheckIsTrue(d, r);
      assert DiffersInOne(n, r) && IsTrueOf(d, r, e);
    }
  }

  /** Without an approval that is needed nothing runs, and acceptable arguments are not refused. */
  lemma ApprovalIsAsked(d: Definition, args: seq<Argument>, approved: bool, toText: Value -> string)
    requires DistinctParams(d.schema)
    ensures Executed(d, args, approved, toText).ApprovalNeeded? <==>
            d.needsApproval && !approved && IsAcceptable(d, Normalized(d, args).normalized)
    ensures !Executed(d, args, approved, toText).UnknownTool?
  {
    RunsExactlyIfAcceptable(d, args, true, toText);
    hide Normalized, Check, IsAcceptable, Repaired;
  }

  /** The arguments of a call that a normalization used, stripped or renamed. */
  function Direct(d: Definition, args: seq<Argument>): nat {
    if args == [] then 0
    else Direct(d, args[..|args| - 1]) + (if args[|args| - 1].name in Allowed(d) then 1 else 0)
  }

  lemma {:induction false} EveryArgumentCounts(d: Definition, args: seq<Argument>)
    ensures var n := Normalized(d, args);
      && Direct(d, args) + |n.resolved| + |n.stripped| == |args|
      && (forall r | r in n.resolved :: r.0 !in Allowed(d) && r.0 in d.aliases && d.aliases[r.0] == r.1)
      && (forall k | k in n.stripped :: k !in Allowed(d))
  {
    hide Allowed;
    if args != [] {
      EveryArgumentCounts(d, args[..|args| - 1]);
    }
  }

  /** Which values pass for which declared types. */
  lemma TypesByValue(v: Value, kind: Kind)
    ensures Matches(v, kind) <==>
      match v
      case StringValue(_) => kind.StringKind? || kind.AnyKind?
      case IntValue(_) => kind.IntegerKind? || kind.FloatKind? || kind.AnyKind?
      case FloatValue(_) => kind.FloatKind? || kind.AnyKind?
      case BoolValue(_) => kind.BooleanKind? || kind.AnyKind?
      case OtherValue(_) => kind.AnyKind?
  {
  }

  /** What is taken for a number where a text is declared: what would pass for a float or a
      truth value. */
  lemma NumbersByType(v: Value)
    ensures IsNumeric(v) <==> Matches(v, FloatKind) || Matches(v, BooleanKind)
  {
  }

  /** A fault that some repair applies to: only the mode is missing and can be told, only the
      content is missing beside a search without a mode, or a text is wrong and some number
      stands for a text. */
  ghost predicate HasRepair(d: Definition, args: Arguments) {
    var missing := Required(d) - args.Keys;
    if args.Keys - Allowed(d) != {} then false
    else if missing != {} then
      || (missing == {"mode"} && ("search" in args || "content" in args))
      || (missing == {"content"} && "search" in args && "mode" !in args)
    else
      && (exists i | 0 <= i < |d.schema| ::
            && d.schema[i].kind.StringKind? && IllTyped(d.schema[i], args)
            && forall j | 0 <= j < i :: !IllTyped(d.schema[j], args))
      && (exists i | 0 <= i < |d.schema| :: IsNumberForText(d.schema[i], args))
  }

  lemma {:induction false} NoNumberForText(schema: seq<Param>, args: Arguments)
    requires FirstNumberForText(schema, args).None?
    ensures forall i | 0 <= i < |schema| :: !IsNumberForText(schema[i], args)
  {
    hide IsNumberForText;
    if schema != [] {
      NoNumberForText(schema[1..], args);
      assert forall i | 0 < i < |schema| :: schema[i] == schema[1..][i - 1];
    }
  }

  lemma RepairedIffHasRepair(d: Definition, args: Arguments, toText: Value -> string)
    requires Check(d, args).Some?
    ensures Repaired(d, args, Check(d, args).value, toText).Some? <==> HasRepair(d, args)
  {
    CheckIsTrue(d, args);
    FirstIllTypedIsFirst(d.schema, args);
    hide IllTyped, IsNumberForText, Allowed, Required;
    if FirstNumberForText(d.schema, args).None? {
      NoNumberForText(d.schema, args);
    } else {
      var i := FirstNumberIsListed(d.schema, args);
      FirstNumberIsNumber(d.schema, args);
    }
  }

  lemma FirstNumberIsNumber(schema: seq<Param>, args: Arguments)
    requires FirstNumberForText(schema, args).Some?
    ensures IsNumberForText(FirstNumberForText(schema, args).value, args)
  {
  }

  /** The counters tell what happened: every stripped argument, every call that was not as
      declared, one repair or failed repair for every invalid one, and every refusal. */
  lemma CountersTell(m: Metrics, d: Definition, args: seq<Argument>, approved: bool, toText: Value -> string)
    requires DistinctParams(d.schema)
    ensures var c := CountExecution(m, d, args, toText);
      var n := Normalized(d, args);
      var valid, refused := IsValid(d, n.normalized), Executed(d, args, approved, toText).Refused?;
      && c.received == m.received
      && c.unknownArguments + Direct(d, args) + |n.resolved| == m.unknownArguments + |args|
      && (c.normalized == m.normalized + if Direct(d, args) == |args| then 0 else 1)
      && (valid ==> c.repairs == m.repairs && c.repairFailures == m.repairFailures)
      && (!valid && !refused ==> c.repairs == m.repairs + 1 && c.repairFailures == m.repairFailures)
      && (!valid ==>
            && c.repairs == m.repairs + (if HasRepair(d, n.normalized) then 1 else 0)
            && c.repairFailures == m.repairFailures + (if HasRepair(d, n.normalized) then 0 else 1))
      && (c.repairFailures > m.repairFailures ==> refused)
      && c.invalidArguments == m.invalidArguments + if refused then 1 else 0
  {
    var n := Normalized(d, args);
    EveryArgumentCounts(d, args);
    CheckIsExact(d, n.normalized);
    if Check(d, n.normalized).Some? {
      RepairedIffHasRepair(d, n.normalized, toText);
    }
    hide Normalized, Check, Repaired, IsValid, Direct, HasRepair;
  }
}
