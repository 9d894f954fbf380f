/** Guardian rules: which alerts a row's rules raise on its calculated values. */
module Guardian {
  import opened Values

  /** The float constructor on cleaned-up text, and `str`. */
  datatype Config = Config(numeral: string -> Option<real>, show: Json -> string)

  function ToNumber(cfg: Config, v: Json): Option<real> {
    match v
    case JNum(r) => Some(r)
    case JText(s) => cfg.numeral(s)
    case _ => None
  }

  function Show(cfg: Config, v: Json): string {
    if v.JText? then v.s else cfg.show(v)
  }

  predicate Compare(cfg: Config, left: Json, operator: string, right: Json) {
    operator in {">", "<", "==", ">=", "<="} &&
    match (ToNumber(cfg, left), ToNumber(cfg, right))
    case (Some(a), Some(b)) =>
      if operator == ">" then a > b
      else if operator == "<" then a < b
      else if operator == "==" then a == b
      else if operator == ">=" then a >= b
      else a <= b
    case _ => operator == "==" && Strip(Show(cfg, left)) == Strip(Show(cfg, right))
  }

  function RuleText(cfg: Config, rule: map<string, Json>, key: string): string {
    if key in rule then Strip(Show(cfg, rule[key])) else ""
  }

  function RulesOf(metadata: Metadata): seq<Json> {
    if "_guardians" in metadata && metadata["_guardians"].JList? then metadata["_guardians"].items else []
  }

  /** The action a rule raises, if it is complete and its comparison holds. */
  function Fires(cfg: Config, calculated: map<string, Json>, metadata: Metadata, rule: Json): Option<string> {
    if !rule.JDict? then None else
      var entries := rule.entries;
      var field, operator, action := RuleText(cfg, entries, "field"), RuleText(cfg, entries, "operator"), RuleText(cfg, entries, "action");
      var threshold := if "threshold" in entries then entries["threshold"] else JNull;
      var left := if field in calculated then calculated[field] else if field in metadata then metadata[field] else JNull;
      if field == "" || action == "" || operator == "" || left == JNull || !Compare(cfg, left, operator, threshold) then None
      else Some(action)
  }

  method EvaluateRow(cfg: Config, calculated: map<string, Json>, metadata: Metadata) returns (alerts: seq<string>)
    ensures forall a :: a in alerts <==> exists i :: 0 <= i < |RulesOf(metadata)| && Fires(cfg, calculated, metadata, RulesOf(metadata)[i]) == Some(a)
    ensures forall i, j :: 0 <= i < j < |alerts| ==> alerts[i] != alerts[j]
    ensures alerts != [] <==> Alerted(cfg, calculated, metadata)
  {
    hide Fires;
    var rules := RulesOf(metadata);
    alerts := [];
    for n := 0 to |rules|
      invariant forall a :: a in alerts <==> exists i :: 0 <= i < n && Fires(cfg, calculated, metadata, rules[i]) == Some(a)
      invariant forall i, j :: 0 <= i < j < |alerts| ==> alerts[i] != alerts[j]
    {
      var action := Fires(cfg, calculated, metadata, rules[n]);
      if action.Some? && action.value !in alerts {
        alerts := alerts + [action.value];
      }
    }
    if alerts != [] { assert alerts[0] in alerts; }
  }

  predicate Alerted(cfg: Config, calculated: map<string, Json>, metadata: Metadata) {
    exists i :: 0 <= i < |RulesOf(metadata)| && Fires(cfg, calculated, metadata, RulesOf(metadata)[i]).Some?
  }

  function CountDicts(rules: seq<Json>): nat {
    if rules == [] then 0 else CountDicts(rules[..|rules| - 1]) + (if rules[|rules| - 1].JDict? then 1 else 0)
  }

  /** Without a well-formed rule there is no alert. */
  lemma {:induction false} NoDictsNoAlert(cfg: Config, calculated: map<string, Json>, metadata: Metadata)
    requires CountDicts(RulesOf(metadata)) == 0
    ensures !Alerted(cfg, calculated, metadata)
  {
    var rules := RulesOf(metadata);
    forall i | 0 <= i < |rules| ensures !rules[i].JDict? { NoDictAt(rules, i); }
  }

  lemma {:induction false} NoDictAt(rules: seq<Json>, i: nat)
    requires CountDicts(rules) == 0 && i < |rules|
    ensures !rules[i].JDict?
    decreases |rules|
  {
    if i < |rules| - 1 { NoDictAt(rules[..|rules| - 1], i); }
  }

  // ---------- What makes a rule fire ----------

  /** A dict whose field, operator and action are texts that are not blank. */
  predicate Complete(entries: map<string, Json>, field: string, operator: string, action: string) {
    && "field" in entries && entries["field"].JText? && Strip(entries["field"].s) == field && field != ""
    && "operator" in entries && entries["operator"].JText? && Strip(entries["operator"].s) == operator && operator != ""
    && "action" in entries && entries["action"].JText? && Strip(entries["action"].s) == action && action != ""
  }

  /** What reads as a number: numbers and the texts that the numeral reader takes. */
  predicate Reads(cfg: Config, v: Json, r: real) {
    v == JNum(r) || (v.JText? && cfg.numeral(v.s) == Some(r))
  }

  /** The value of the field is the calculated one, else the metadata's. */
  predicate FieldIs(calculated: map<string, Json>, metadata: Metadata, field: string, v: Json) {
    if field in calculated then calculated[field] == v else field in metadata && metadata[field] == v
  }

  /** On two numbers a complete rule raises its action exactly when they compare as the operator says. */
  lemma FiresOnNumbers(cfg: Config, calculated: map<string, Json>, metadata: Metadata, entries: map<string, Json>,
                       field: string, operator: string, action: string, left: Json, x: real, y: real)
    requires Complete(entries, field, operator, action) && FieldIs(calculated, metadata, field, left) && Reads(cfg, left, x)
    requires "threshold" in entries && Reads(cfg, entries["threshold"], y)
    ensures var fires := (operator == ">" && x > y) || (operator == "<" && x < y) || (operator == "==" && x == y)
                         || (operator == ">=" && x >= y) || (operator == "<=" && x <= y);
            Fires(cfg, calculated, metadata, JDict(entries)) == if fires then Some(action) else None
  {
    hide Strip;
  }

  /** When one side is no number, only `==` can hold, on the texts of both sides, trimmed. */
  lemma FiresOnTexts(cfg: Config, calculated: map<string, Json>, metadata: Metadata, entries: map<string, Json>,
                     field: string, operator: string, action: string, left: string, right: string)
    requires Complete(entries, field, operator, action) && FieldIs(calculated, metadata, field, JText(left))
    requires "threshold" in entries && entries["threshold"] == JText(right) && (cfg.numeral(left).None? || cfg.numeral(right).None?)
    ensures Fires(cfg, calculated, metadata, JDict(entries)) == if operator == "==" && Strip(left) == Strip(right) then Some(action) else None
  {
    hide Strip;
  }

  /** Incomplete rules, and rules on a field without a value, raise nothing. */
  lemma SilentRules(cfg: Config, calculated: map<string, Json>, metadata: Metadata, rule: Json)
    requires !rule.JDict? || "field" !in rule.entries || "operator" !in rule.entries || "action" !in rule.entries
             || (rule.entries["field"].JText? && var field := Strip(rule.entries["field"].s);
                   field == "" || (field !in calculated && field !in metadata) || FieldIs(calculated, metadata, field, JNull))
    ensures Fires(cfg, calculated, metadata, rule).None?
  {
    hide Strip;
  }

  /** A row raises an alert exactly when a rule of its `_guardians` list fires. */
  lemma AlertedMeans(cfg: Config, calculated: map<string, Json>, metadata: Metadata)
    ensures Alerted(cfg, calculated, metadata) <==>
            "_guardians" in metadata && metadata["_guardians"].JList?
            && exists rule :: rule in metadata["_guardians"].items && Fires(cfg, calculated, metadata, rule).Some?
  {
    hide Fires;
    if "_guardians" in metadata && metadata["_guardians"].JList? {
      var rules := metadata["_guardians"].items;
      assert RulesOf(metadata) == rules;
      if rule :| rule in rules && Fires(cfg, calculated, metadata, rule).Some? {
        var i :| 0 <= i < |rules| && rules[i] == rule;
        assert Fires(cfg, calculated, metadata, rules[i]).Some?;
      }
      if i :| 0 <= i < |rules| && Fires(cfg, calculated, metadata, rules[i]).Some? { assert rules[i] in rules; }
    } else {
      assert RulesOf(metadata) == [];
    }
  }

  /** The dicts of a list, by position. */
  function DictPositions(rules: seq<Json>): set<nat> {
    set i: nat | i < |rules| && rules[i].JDict?
  }

  lemma {:induction false} CountDictsMeans(rules: seq<Json>)
    ensures CountDicts(rules) == |DictPositions(rules)|
  {
    if rules != [] {
      var last := |rules| - 1;
      CountDictsMeans(rules[..last]);
      assert DictPositions(rules) == DictPositions(rules[..last]) + (if rules[last].JDict? then {last} else {});
    }
  }
}
