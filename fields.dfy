/** The per-field renderers of a service block: restart policy, update and
    rollback configuration, placement constraints, labels and logging. Each
    returns the lines it writes. */
module Fields {
  import opened Wrappers
  import opened Strings
  import opened Lines
  import opened Iteration
  import opened Swarm

  const RestartHeader := "      restart_policy:"
  const ConditionKey := "        condition: "
  const DelayKey := "        delay: "
  const MaxAttemptsKey := "        max_attempts: "
  const WindowKey := "        window: "

  /** restartPolicyOut: the header and four fields, with defaults for the
      fields left unset. */
  function RestartPolicyOut(p: RestartPolicy): (r: seq<string>)
    ensures |r| == 5 && r[0] == RestartHeader
  {
    [ RestartHeader,
      ConditionKey + p.condition,
      DelayKey + (if p.delay.None? then "3s" else p.delay.value),
      MaxAttemptsKey + (if p.maxAttempts.None? then "0" else Decimal(p.maxAttempts.value)),
      WindowKey + (if p.window.None? then "0s" else p.window.value) ]
  }

  /** Reading the restart block back gives the condition verbatim and each
      other field's value, or its default (3s, 0, 0s) when it is unset. */
  lemma RestartPolicyFields(p: RestartPolicy)
    ensures var r := RestartPolicyOut(p);
      && FieldValue(r, ConditionKey) == Some(p.condition)
      && FieldValue(r, DelayKey) == Some(p.delay.GetOr("3s"))
      && FieldValue(r, MaxAttemptsKey).Some?
      && IsDigits(FieldValue(r, MaxAttemptsKey).value)
      && ParseDecimal(FieldValue(r, MaxAttemptsKey).value) == p.maxAttempts.GetOr(0)
      && FieldValue(r, WindowKey) == Some(p.window.GetOr("0s"))
  {
    assert Decimal(0) == "0";
    DecimalRoundTrip(p.maxAttempts.GetOr(0));
    var h, a1, a2, a3, a4 := RestartParts(p);
    ReadParts(h, a1, a2, a3, a4, ConditionKey);
    ReadParts(h, a1, a2, a3, a4, DelayKey);
    ReadParts(h, a1, a2, a3, a4, MaxAttemptsKey);
    ReadParts(h, a1, a2, a3, a4, WindowKey);
    FieldLineHit(true, ConditionKey, p.condition);
    FieldLineHit(true, DelayKey, p.delay.GetOr("3s"));
    FieldLineHit(true, MaxAttemptsKey, Decimal(p.maxAttempts.GetOr(0)));
    FieldLineHit(true, WindowKey, p.window.GetOr("0s"));
    FieldLineMiss(true, ConditionKey, p.condition, DelayKey, 8);
    FieldLineMiss(true, ConditionKey, p.condition, MaxAttemptsKey, 8);
    FieldLineMiss(true, ConditionKey, p.condition, WindowKey, 8);
    FieldLineMiss(true, DelayKey, p.delay.GetOr("3s"), MaxAttemptsKey, 8);
    FieldLineMiss(true, DelayKey, p.delay.GetOr("3s"), WindowKey, 8);
    FieldLineMiss(true, MaxAttemptsKey, Decimal(p.maxAttempts.GetOr(0)), WindowKey, 8);
  }

  /** The header and the four field lines of the restart block, as parts. */
  lemma RestartParts(p: RestartPolicy)
    returns (h: seq<string>, a1: seq<string>, a2: seq<string>, a3: seq<string>, a4: seq<string>)
    ensures FieldValue(h, ConditionKey) == None && FieldValue(h, DelayKey) == None
    ensures FieldValue(h, MaxAttemptsKey) == None && FieldValue(h, WindowKey) == None
    ensures a1 == FieldLine(true, ConditionKey, p.condition)
    ensures a2 == FieldLine(true, DelayKey, p.delay.GetOr("3s"))
    ensures a3 == FieldLine(true, MaxAttemptsKey, Decimal(p.maxAttempts.GetOr(0)))
    ensures a4 == FieldLine(true, WindowKey, p.window.GetOr("0s"))
    ensures RestartPolicyOut(p) == h + a1 + a2 + a3 + a4
  {
    h := [RestartHeader];
    a1, a2 := FieldLine(true, ConditionKey, p.condition), FieldLine(true, DelayKey, p.delay.GetOr("3s"));
    a3 := FieldLine(true, MaxAttemptsKey, Decimal(p.maxAttempts.GetOr(0)));
    a4 := FieldLine(true, WindowKey, p.window.GetOr("0s"));
    assert RestartHeader + "" == RestartHeader;
    assert h == FieldLine(true, RestartHeader, "");
    FieldLineMiss(true, RestartHeader, "", ConditionKey, 6);
    FieldLineMiss(true, RestartHeader, "", DelayKey, 6);
    FieldLineMiss(true, RestartHeader, "", MaxAttemptsKey, 6);
    FieldLineMiss(true, RestartHeader, "", WindowKey, 6);
  }

  const ParallelismKey := "        parallelism: "
  const FailureActionKey := "        failure_action: "
  const MonitorKey := "        monitor: "
  const MaxFailureRatioKey := "        max_failure_ratio: "

  /** The max_failure_ratio line as line 99 of the source writes it: the
      format has no colon after the key, and its %d verb does not apply to a
      float32, so fmt writes %!d(float32=...) in place of the value. */
  function MaxFailureRatioLineAsWritten(ratio: Ratio): (r: string) {
    "        max_failure_ratio %!d(float32=" + ratio.text + ")"
  }

  /** The max_failure_ratio line as evidently intended: key, colon, value. */
  function MaxFailureRatioLine(ratio: Ratio): (r: string) {
    MaxFailureRatioKey + ratio.text
  }

  /** As written, a reader never finds max_failure_ratio in the line the
      source writes for it; the corrected line reads back as the value. */
  lemma MaxFailureRatioFinding(ratio: Ratio)
    ensures FieldValue([MaxFailureRatioLineAsWritten(ratio)], MaxFailureRatioKey) == None
    ensures FieldValue([MaxFailureRatioLine(ratio)], MaxFailureRatioKey) == Some(ratio.text)
  {
    var w := MaxFailureRatioLineAsWritten(ratio);
    assert w[25] == ' ' != MaxFailureRatioKey[25];
    var c := MaxFailureRatioLine(ratio);
    assert c[..|MaxFailureRatioKey|] == MaxFailureRatioKey;
  }

  /** The line for a sub-field when it is set, nothing otherwise. */
  function FieldLine(isSet: bool, key: string, value: string): (r: seq<string>) {
    if isSet then [key + value] else []
  }

  /** uporrollConfigOut (with the corrected max_failure_ratio line): one line
      per sub-field that is set, no header. The delay and monitor guards
      compare a duration's text with "", which it never is, so those two
      lines are always written. */
  function UpdateConfigOut(c: UpdateConfig): (r: seq<string>)
    ensures 2 <= |r| <= 5
  {
    FieldLine(c.parallelism != 0, ParallelismKey, Decimal(c.parallelism))
    + FieldLine(c.delay != "", DelayKey, c.delay)
    + FieldLine(c.failureAction != "", FailureActionKey, c.failureAction)
    + FieldLine(c.monitor != "", MonitorKey, c.monitor)
    + (if c.maxFailureRatio.value != 0.0 then [MaxFailureRatioLine(c.maxFailureRatio)] else [])
  }

  /** The number of sub-field lines written for c: delay and monitor always,
      the other three when they are set. */
  function SetFields(c: UpdateConfig): (n: nat) {
    2 + (if c.parallelism != 0 then 1 else 0) + (if c.failureAction != "" then 1 else 0)
    + (if c.maxFailureRatio.value != 0.0 then 1 else 0)
  }

  /** A reader finds a sub-field's own key in its part exactly when the
      sub-field is set. */
  lemma FieldLineHit(isSet: bool, key: string, value: string)
    ensures FieldValue(FieldLine(isSet, key, value), key) == if isSet then Some(value) else None
  {
    if isSet {
      assert HasPrefix(key + value, key);
    }
  }

  /** A reader never finds another key in a sub-field's part. */
  lemma FieldLineMiss(isSet: bool, key: string, value: string, probe: string, i: nat)
    requires i < |key| && i < |probe| && key[i] != probe[i]
    ensures FieldValue(FieldLine(isSet, key, value), probe) == None
  {
    if isSet {
      Differ(key + value, probe, i);
    }
  }

  /** A reader looks through the five sub-field parts in order. */
  lemma ReadParts(a: seq<string>, b: seq<string>, c: seq<string>, d: seq<string>, e: seq<string>, key: string)
    ensures FieldValue(a + b + c + d + e, key) ==
      if FieldValue(a, key).Some? then FieldValue(a, key)
      else if FieldValue(b, key).Some? then FieldValue(b, key)
      else if FieldValue(c, key).Some? then FieldValue(c, key)
      else if FieldValue(d, key).Some? then FieldValue(d, key)
      else FieldValue(e, key)
  {
    assert a + b + c + d + e == a + (b + (c + (d + e)));
    FieldValueConcat(a, b + (c + (d + e)), key);
    FieldValueConcat(b, c + (d + e), key);
    FieldValueConcat(c, d + e, key);
    FieldValueConcat(d, e, key);
  }

  /** Parallelism, failure action and max failure ratio are rendered exactly
      when set; delay and monitor always are; each reads back as its value. */
  lemma UpdateConfigFields(c: UpdateConfig)
    ensures var r := UpdateConfigOut(c);
      && FieldValue(r, ParallelismKey) == (if c.parallelism != 0 then Some(Decimal(c.parallelism)) else None)
      && FieldValue(r, DelayKey) == Some(c.delay)
      && FieldValue(r, FailureActionKey) == (if c.failureAction != "" then Some(c.failureAction) else None)
      && FieldValue(r, MonitorKey) == Some(c.monitor)
      && FieldValue(r, MaxFailureRatioKey) == (if c.maxFailureRatio.value != 0.0 then Some(c.maxFailureRatio.text) else None)
  {
    var a1, a2, a3, a4, a5 := UpdateConfigParts(c);
    ReadParallelism(a1, a2, a3, a4, a5, c);
    ReadDelay(a1, a2, a3, a4, a5, c);
    ReadFailureAction(a1, a2, a3, a4, a5, c);
    ReadMonitor(a1, a2, a3, a4, a5, c);
    ReadMaxFailureRatio(a1, a2, a3, a4, a5, c);
  }

  /** The five sub-field parts uporrollConfigOut writes, in order. */
  lemma UpdateConfigParts(c: UpdateConfig)
    returns (a1: seq<string>, a2: seq<string>, a3: seq<string>, a4: seq<string>, a5: seq<string>)
    ensures a1 == FieldLine(c.parallelism != 0, ParallelismKey, Decimal(c.parallelism))
    ensures a2 == FieldLine(c.delay != "", DelayKey, c.delay)
    ensures a3 == FieldLine(c.failureAction != "", FailureActionKey, c.failureAction)
    ensures a4 == FieldLine(c.monitor != "", MonitorKey, c.monitor)
    ensures a5 == FieldLine(c.maxFailureRatio.value != 0.0, MaxFailureRatioKey, c.maxFailureRatio.text)
    ensures UpdateConfigOut(c) == a1 + a2 + a3 + a4 + a5
  {
    a1, a2, a3, a4, a5 := FieldLine(c.parallelism != 0, ParallelismKey, Decimal(c.parallelism)),
      FieldLine(c.delay != "", DelayKey, c.delay), FieldLine(c.failureAction != "", FailureActionKey, c.failureAction),
      FieldLine(c.monitor != "", MonitorKey, c.monitor),
      FieldLine(c.maxFailureRatio.value != 0.0, MaxFailureRatioKey, c.maxFailureRatio.text);
  }

  lemma ReadParallelism(a1: seq<string>, a2: seq<string>, a3: seq<string>, a4: seq<string>, a5: seq<string>, c: UpdateConfig)
    requires a1 == FieldLine(c.parallelism != 0, ParallelismKey, Decimal(c.parallelism))
    requires a2 == FieldLine(c.delay != "", DelayKey, c.delay)
    requires a3 == FieldLine(c.failureAction != "", FailureActionKey, c.failureAction)
    requires a4 == FieldLine(c.monitor != "", MonitorKey, c.monitor)
    requires a5 == FieldLine(c.maxFailureRatio.value != 0.0, MaxFailureRatioKey, c.maxFailureRatio.text)
    ensures FieldValue(a1 + a2 + a3 + a4 + a5, ParallelismKey) == (if c.parallelism != 0 then Some(Decimal(c.parallelism)) else None)
  {
    ReadParts(a1, a2, a3, a4, a5, ParallelismKey);
    FieldLineHit(c.parallelism != 0, ParallelismKey, Decimal(c.parallelism));
    FieldLineMiss(c.delay != "", DelayKey, c.delay, ParallelismKey, 8);
    FieldLineMiss(c.failureAction != "", FailureActionKey, c.failureAction, ParallelismKey, 8);
    FieldLineMiss(c.monitor != "", MonitorKey, c.monitor, ParallelismKey, 8);
    FieldLineMiss(c.maxFailureRatio.value != 0.0, MaxFailureRatioKey, c.maxFailureRatio.text, ParallelismKey, 8);
  }

  lemma ReadDelay(a1: seq<string>, a2: seq<string>, a3: seq<string>, a4: seq<string>, a5: seq<string>, c: UpdateConfig)
    requires a1 == FieldLine(c.parallelism != 0, ParallelismKey, Decimal(c.parallelism))
    requires a2 == FieldLine(c.delay != "", DelayKey, c.delay)
    requires a3 == FieldLine(c.failureAction != "", FailureActionKey, c.failureAction)
    requires a4 == FieldLine(c.monitor != "", MonitorKey, c.monitor)
    requires a5 == FieldLine(c.maxFailureRatio.value != 0.0, MaxFailureRatioKey, c.maxFailureRatio.text)
    ensures FieldValue(a1 + a2 + a3 + a4 + a5, DelayKey) == Some(c.delay)
  {
    ReadParts(a1, a2, a3, a4, a5, DelayKey);
    FieldLineMiss(c.parallelism != 0, ParallelismKey, Decimal(c.parallelism), DelayKey, 8);
    FieldLineHit(c.delay != "", DelayKey, c.delay);
    FieldLineMiss(c.failureAction != "", FailureActionKey, c.failureAction, DelayKey, 8);
    FieldLineMiss(c.monitor != "", MonitorKey, c.monitor, DelayKey, 8);
    FieldLineMiss(c.maxFailureRatio.value != 0.0, MaxFailureRatioKey, c.maxFailureRatio.text, DelayKey, 8);
  }

  lemma ReadFailureAction(a1: seq<string>, a2: seq<string>, a3: seq<string>, a4: seq<string>, a5: seq<string>, c: UpdateConfig)
    requires a1 == FieldLine(c.parallelism != 0, ParallelismKey, Decimal(c.parallelism))
    requires a2 == FieldLine(c.delay != "", DelayKey, c.delay)
    requires a3 == FieldLine(c.failureAction != "", FailureActionKey, c.failureAction)
    requires a4 == FieldLine(c.monitor != "", MonitorKey, c.monitor)
    requires a5 == FieldLine(c.maxFailureRatio.value != 0.0, MaxFailureRatioKey, c.maxFailureRatio.text)
    ensures FieldValue(a1 + a2 + a3 + a4 + a5, FailureActionKey) == (if c.failureAction != "" then Some(c.failureAction) else None)
  {
    ReadParts(a1, a2, a3, a4, a5, FailureActionKey);
    FieldLineMiss(c.parallelism != 0, ParallelismKey, Decimal(c.parallelism), FailureActionKey, 8);
    FieldLineMiss(c.delay != "", DelayKey, c.delay, FailureActionKey, 8);
    FieldLineHit(c.failureAction != "", FailureActionKey, c.failureAction);
    FieldLineMiss(c.monitor != "", MonitorKey, c.monitor, FailureActionKey, 8);
    FieldLineMiss(c.maxFailureRatio.value != 0.0, MaxFailureRatioKey, c.maxFailureRatio.text, FailureActionKey, 8);
  }

  lemma ReadMonitor(a1: seq<string>, a2: seq<string>, a3: seq<string>, a4: seq<string>, a5: seq<string>, c: UpdateConfig)
    requires a1 == FieldLine(c.parallelism != 0, ParallelismKey, Decimal(c.parallelism))
    requires a2 == FieldLine(c.delay != "", DelayKey, c.delay)
    requires a3 == FieldLine(c.failureAction != "", FailureActionKey, c.failureAction)
    requires a4 == FieldLine(c.monitor != "", MonitorKey, c.monitor)
    requires a5 == FieldLine(c.maxFailureRatio.value != 0.0, MaxFailureRatioKey, c.maxFailureRatio.text)
    ensures FieldValue(a1 + a2 + a3 + a4 + a5, MonitorKey) == Some(c.monitor)
  {
    ReadParts(a1, a2, a3, a4, a5, MonitorKey);
    FieldLineMiss(c.parallelism != 0, ParallelismKey, Decimal(c.parallelism), MonitorKey, 8);
    FieldLineMiss(c.delay != "", DelayKey, c.delay, MonitorKey, 8);
    FieldLineMiss(c.failureAction != "", FailureActionKey, c.failureAction, MonitorKey, 8);
    FieldLineHit(c.monitor != "", MonitorKey, c.monitor);
    FieldLineMiss(c.maxFailureRatio.value != 0.0, MaxFailureRatioKey, c.maxFailureRatio.text, MonitorKey, 9);
  }

  lemma ReadMaxFailureRatio(a1: seq<string>, a2: seq<string>, a3: seq<string>, a4: seq<string>, a5: seq<string>, c: UpdateConfig)
    requires a1 == FieldLine(c.parallelism != 0, ParallelismKey, Decimal(c.parallelism))
    requires a2 == FieldLine(c.delay != "", DelayKey, c.delay)
    requires a3 == FieldLine(c.failureAction != "", FailureActionKey, c.failureAction)
    requires a4 == FieldLine(c.monitor != "", MonitorKey, c.monitor)
    requires a5 == FieldLine(c.maxFailureRatio.value != 0.0, MaxFailureRatioKey, c.maxFailureRatio.text)
    ensures FieldValue(a1 + a2 + a3 + a4 + a5, MaxFailureRatioKey) == (if c.maxFailureRatio.value != 0.0 then Some(c.maxFailureRatio.text) else None)
  {
    ReadParts(a1, a2, a3, a4, a5, MaxFailureRatioKey);
    FieldLineMiss(c.parallelism != 0, ParallelismKey, Decimal(c.parallelism), MaxFailureRatioKey, 8);
    FieldLineMiss(c.delay != "", DelayKey, c.delay, MaxFailureRatioKey, 8);
    FieldLineMiss(c.failureAction != "", FailureActionKey, c.failureAction, MaxFailureRatioKey, 8);
    FieldLineMiss(c.monitor != "", MonitorKey, c.monitor, MaxFailureRatioKey, 9);
    FieldLineHit(c.maxFailureRatio.value != 0.0, MaxFailureRatioKey, c.maxFailureRatio.text);
  }

  /** Every line of lines starts with n spaces. */
  predicate Indented(lines: seq<string>, n: nat) {
    forall i | 0 <= i < |lines| :: HasPrefix(lines[i], Spaces(n))
  }

  lemma IndentedConcat(a: seq<string>, b: seq<string>, n: nat)
    requires Indented(a, n) && Indented(b, n)
    ensures Indented(a + b, n)
  {
    forall i | 0 <= i < |a + b| ensures HasPrefix((a + b)[i], Spaces(n)) {
      if i >= |a| {
        assert (a + b)[i] == b[i - |a|];
      }
    }
  }

  lemma FieldLineIndented(isSet: bool, key: string, value: string)
    requires HasPrefix(key, Spaces(8))
    ensures Indented(FieldLine(isSet, key, value), 8)
  {
    if isSet {
      assert (key + value)[..8] == key[..8];
    }
  }

  /** The block holds one line per sub-field that is set, and no header:
      every line is indented as a sub-field. */
  lemma UpdateConfigShape(c: UpdateConfig)
    ensures var r := UpdateConfigOut(c);
      && |r| == SetFields(c)
      && Indented(r, 8)
  {
    assert Spaces(8) == "        ";
    FieldLineIndented(c.parallelism != 0, ParallelismKey, Decimal(c.parallelism));
    FieldLineIndented(c.delay != "", DelayKey, c.delay);
    FieldLineIndented(c.failureAction != "", FailureActionKey, c.failureAction);
    FieldLineIndented(c.monitor != "", MonitorKey, c.monitor);
    FieldLineIndented(c.maxFailureRatio.value != 0.0, MaxFailureRatioKey, c.maxFailureRatio.text);
    var a1, a2, a3, a4, a5 := FieldLine(c.parallelism != 0, ParallelismKey, Decimal(c.parallelism)),
      FieldLine(c.delay != "", DelayKey, c.delay), FieldLine(c.failureAction != "", FailureActionKey, c.failureAction),
      FieldLine(c.monitor != "", MonitorKey, c.monitor),
      FieldLine(c.maxFailureRatio.value != 0.0, MaxFailureRatioKey, c.maxFailureRatio.text);
    assert UpdateConfigOut(c) == a1 + a2 + a3 + a4 + a5;
    IndentedConcat(a1, a2, 8);
    IndentedConcat(a1 + a2, a3, 8);
    IndentedConcat(a1 + a2 + a3, a4, 8);
    IndentedConcat(a1 + a2 + a3 + a4, a5, 8);
  }

  const PlacementHeader := "      placement: "
  const ConstraintsHeader := "        constraints:"
  const ConstraintMarker := "          - "

  /** The lines constraintsOut writes. The first constraint completes the
      marker line written ahead of the loop; with no constraints that marker
      stays on its own. */
  function ConstraintsLines(constraints: seq<string>): (r: seq<string>) {
    [PlacementHeader, ConstraintsHeader]
    + if constraints == [] then [ConstraintMarker] else ListLines(ConstraintMarker, constraints)
  }

  /** constraintsOut. */
  method ConstraintsOut(constraints: seq<string>) returns (out: seq<string>)
    ensures out == ConstraintsLines(constraints)
  {
    out := [PlacementHeader, ConstraintsHeader];
    var pending := ConstraintMarker;
    for i := 0 to |constraints|
      invariant |out| == 2 + i
      invariant out[..2] == [PlacementHeader, ConstraintsHeader]
      invariant forall j | 0 <= j < i :: out[2 + j] == ConstraintMarker + constraints[j]
    {
      if i == 0 {
        out := out + [pending + constraints[i]];
      } else {
        out := out + [ConstraintMarker + constraints[i]];
      }
    }
    if |constraints| == 0 {
      out := out + [pending];
    }
  }

  /** For one or more constraints: the two headers, then exactly one entry per
      constraint, in order. */
  lemma ConstraintsEntries(constraints: seq<string>)
    requires constraints != []
    ensures var r := ConstraintsLines(constraints);
      && |r| == 2 + |constraints|
      && r[..2] == [PlacementHeader, ConstraintsHeader]
      && ListItems(r[2..], ConstraintMarker) == Some(constraints)
  {
    var r := ConstraintsLines(constraints);
    assert r[2..] == ListLines(ConstraintMarker, constraints);
    ListRoundTrip(ConstraintMarker, constraints);
  }

  /** How one map entry is written: a label list entry at some indentation,
      or a logging option, plain or with its value quoted. */
  datatype EntryStyle = LabelEntry(indent: nat) | PlainOption | QuotedOption

  function EntryLine(style: EntryStyle, key: string, value: string): (r: string) {
    match style
    case LabelEntry(indent) => Spaces(indent) + "  - " + Trim(key) + "=" + Trim(value)
    case PlainOption => "        " + key + ": " + value
    case QuotedOption => "        " + key + ": \"" + value + "\""
  }

  /** One line per key of order, in that order. */
  function EntryLines(style: EntryStyle, m: map<string, string>, order: seq<string>): (r: seq<string>)
    requires forall i | 0 <= i < |order| :: order[i] in m
    ensures |r| == |order|
  {
    seq(|order|, i requires 0 <= i < |order| => EntryLine(style, order[i], m[order[i]]))
  }

  /** The `for key, value := range m` loop of labelsOut and logInfoOut: the
      order is Go's choice, and the method returns it. */
  method EntriesOut(style: EntryStyle, m: map<string, string>)
    returns (out: seq<string>, ghost order: seq<string>)
    ensures Enumerates(order, m.Keys)
    ensures out == EntryLines(style, m, order)
  {
    out, order := [], [];
    ghost var done: set<string> := {};
    var rest := m.Keys;
    while rest != {}
      invariant rest == m.Keys - done && done <= m.Keys
      invariant Enumerates(order, done)
      invariant out == EntryLines(style, m, order)
      decreases rest
    {
      var key :| key in rest;
      out := out + [EntryLine(style, key, m[key])];
      Extend(order, done, key);
      order := order + [key];
      done := done + {key};
      rest := rest - {key};
    }
  }

  /** The lines labelsOut writes. */
  function LabelsLines(labels: map<string, string>, indent: nat, order: seq<string>): (r: seq<string>)
    requires forall i | 0 <= i < |order| :: order[i] in labels
  {
    [Spaces(indent) + "labels:"] + EntryLines(LabelEntry(indent), labels, order)
  }

  /** labelsOut. */
  method LabelsOut(labels: map<string, string>, indent: nat)
    returns (out: seq<string>, ghost order: seq<string>)
    ensures Enumerates(order, labels.Keys)
    ensures out == LabelsLines(labels, indent, order)
  {
    var spacer := "";
    for counter := 0 to indent
      invariant spacer == Spaces(counter)
    {
      spacer := spacer + " ";
    }
    var entries;
    entries, order := EntriesOut(LabelEntry(indent), labels);
    out := [spacer + "labels:"] + entries;
  }

  /** A label list item: indented by two more spaces than the header, the
      key and the value stripped of the spaces at their two ends. */
  function LabelItem(indent: nat, key: string, value: string): (r: string) {
    Spaces(indent + 2) + "- " + Trim(key) + "=" + Trim(value)
  }

  /** line is the item of some label. */
  predicate IsLabelItem(line: string, indent: nat, labels: map<string, string>) {
    exists k | k in labels :: line == LabelItem(indent, k, labels[k])
  }

  /** The entry labelsOut writes is the label item. */
  lemma LabelEntryIndent(indent: nat, key: string, value: string)
    ensures EntryLine(LabelEntry(indent), key, value) == LabelItem(indent, key, value)
  {
    assert Spaces(indent + 2) == Spaces(indent) + " " + " ";
    assert Spaces(indent) + "  - " == Spaces(indent + 2) + "- ";
  }

  /** labelsOut(m, k) writes k spaces and "labels:", then exactly one entry
      per label, each indented by k + 2 spaces and reading key=value with
      the spaces at both ends of key and value removed. */
  lemma LabelsShape(labels: map<string, string>, indent: nat, order: seq<string>)
    requires Enumerates(order, labels.Keys)
    ensures var r := LabelsLines(labels, indent, order);
      && |r| == |labels| + 1
      && r[0] == Spaces(indent) + "labels:"
      && (forall k | k in labels :: LabelItem(indent, k, labels[k]) in r[1..])
      && (forall i | 1 <= i < |r| :: IsLabelItem(r[i], indent, labels))
  {
    EnumerationSize(order, labels.Keys);
    var r := LabelsLines(labels, indent, order);
    LabelEntriesAreItems(labels, indent, order);
    forall k | k in labels ensures LabelItem(indent, k, labels[k]) in r[1..] {
      var i :| 0 <= i < |order| && order[i] == k;
      assert r[1..][i] == LabelItem(indent, k, labels[k]);
    }
    forall i | 1 <= i < |r| ensures IsLabelItem(r[i], indent, labels) {
      var k := order[i - 1];
      assert k in labels;
      assert r[i] == LabelItem(indent, k, labels[k]);
    }
  }

  /** Entry i of labelsOut's output is the item of the i-th label visited. */
  lemma LabelEntriesAreItems(labels: map<string, string>, indent: nat, order: seq<string>)
    requires forall i | 0 <= i < |order| :: order[i] in labels
    ensures var r := LabelsLines(labels, indent, order);
      forall i | 0 <= i < |order| :: r[i + 1] == LabelItem(indent, order[i], labels[order[i]])
  {
    var entries := EntryLines(LabelEntry(indent), labels, order);
    forall i | 0 <= i < |order| ensures entries[i] == LabelItem(indent, order[i], labels[order[i]]) {
      LabelEntryIndent(indent, order[i], labels[order[i]]);
    }
  }

  const LoggingHeader := "    logging:"
  const DriverKey := "      driver: "
  const OptionsHeader := "      options:"

  /** The lines logInfoOut writes: options only when there is no driver name
      but there are options; driver and quoted options when there are both;
      otherwise the driver line only. */
  function LogInfoLines(d: LogDriver, order: seq<string>): (r: seq<string>)
    requires forall i | 0 <= i < |order| :: order[i] in d.options
  {
    if d.name == "" && |d.options| != 0 then
      [LoggingHeader, OptionsHeader] + EntryLines(PlainOption, d.options, order)
    else if d.name != "" && |d.options| != 0 then
      [LoggingHeader, DriverKey + d.name, OptionsHeader] + EntryLines(QuotedOption, d.options, order)
    else
      [LoggingHeader, DriverKey + d.name]
  }

  /** logInfoOut. */
  method LogInfoOut(d: LogDriver) returns (out: seq<string>, ghost order: seq<string>)
    ensures Enumerates(order, d.options.Keys)
    ensures out == LogInfoLines(d, order)
  {
    if d.name == "" && |d.options| != 0 {
      var entries;
      entries, order := EntriesOut(PlainOption, d.options);
      out := [LoggingHeader, OptionsHeader] + entries;
    } else if d.name != "" && |d.options| != 0 {
      var entries;
      entries, order := EntriesOut(QuotedOption, d.options);
      out := [LoggingHeader, DriverKey + d.name, OptionsHeader] + entries;
    } else {
      out := [LoggingHeader, DriverKey + d.name];
      order := [];
    }
  }

  /** The logging block always opens with "logging:"; it names the driver
      unless the name is empty and there are options; it holds an options
      header exactly when there are options, followed by one entry per
      option. */
  lemma LogInfoShape(d: LogDriver, order: seq<string>)
    requires Enumerates(order, d.options.Keys)
    ensures var r := LogInfoLines(d, order);
      && r[0] == LoggingHeader
      && FieldValue(r, DriverKey) == (if d.name == "" && |d.options| != 0 then None else Some(d.name))
      && (OptionsHeader in r <==> |d.options| != 0)
      && |r| == (if |d.options| == 0 then 2 else if d.name == "" then 2 + |d.options| else 3 + |d.options|)
  {
    EnumerationSize(order, d.options.Keys);
    var r := LogInfoLines(d, order);
    Differ(LoggingHeader, DriverKey, 4);
    if |d.options| != 0 {
      var style := if d.name == "" then PlainOption else QuotedOption;
      var entries := EntryLines(style, d.options, order);
      forall i | 0 <= i < |entries|
        ensures entries[i] != OptionsHeader && !HasPrefix(entries[i], DriverKey)
      {
        assert entries[i][6] == ' ';
        Differ(entries[i], DriverKey, 6);
      }
      assert !HasPrefix(OptionsHeader, DriverKey) by {
        Differ(OptionsHeader, DriverKey, 6);
      }
      FieldValueNone(entries, DriverKey);
      if d.name == "" {
        assert r == [LoggingHeader, OptionsHeader] + entries;
        FieldValueConcat([LoggingHeader, OptionsHeader], entries, DriverKey);
      } else {
        assert r == [LoggingHeader, DriverKey + d.name, OptionsHeader] + entries;
        assert HasPrefix(DriverKey + d.name, DriverKey);
      }
    } else {
      assert (DriverKey + d.name)[6] != OptionsHeader[6];
      assert HasPrefix(DriverKey + d.name, DriverKey);
    }
  }

  /** Every option is written, unquoted when the driver has no name and
      quoted when it has one. */
  lemma LogInfoOptions(d: LogDriver, order: seq<string>)
    requires Enumerates(order, d.options.Keys)
    ensures var r := LogInfoLines(d, order);
      |d.options| != 0 ==> forall k | k in d.options ::
        EntryLine(if d.name == "" then PlainOption else QuotedOption, k, d.options[k]) in r
  {
    var r := LogInfoLines(d, order);
    if |d.options| != 0 {
      var style := if d.name == "" then PlainOption else QuotedOption;
      var entries := EntryLines(style, d.options, order);
      assert r[|r| - |entries|..] == entries;
      forall k | k in d.options ensures EntryLine(style, k, d.options[k]) in r {
        var i :| 0 <= i < |order| && order[i] == k;
        assert r[|r| - |entries| + i] == entries[i];
      }
    }
  }
}
