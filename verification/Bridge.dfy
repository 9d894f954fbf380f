/** From planner intents to executor tasks; one bridge error suppresses every task. */
module Bridge {
  import opened Values
  import opened Intents

  datatype IssueCode = InvalidSelectorId | MixedSelectorLink

  /** What the bridge has appended so far, and the names it knows to be ingested. */
  datatype State = State(tasks: seq<Task>, errors: seq<IssueCode>, known: set<string>)

  datatype Result = Tasks(tasks: seq<Task>) | Issues(errors: seq<IssueCode>)

  function Emit(s: State, t: Task): State {
    s.(tasks := s.tasks + [t])
  }

  function Fail(s: State, code: IssueCode): State {
    s.(errors := s.errors + [code])
  }

  function UpsertStep(uuid: string -> Option<string>, s: State, node: Selector, metadata: Metadata): State {
    match node
    case ByName(name) => Emit(s.(known := s.known + {name}), Ingest(name, metadata))
    case ById(id) =>
      match uuid(id)
      case None => Fail(s, InvalidSelectorId)
      case Some(canonical) => if metadata == map[] then s else Emit(s, UpdateAsteroid(canonical, metadata))
  }

  function AssignStep(uuid: string -> Option<string>, s: State, target: Selector, field: string, value: AssignedValue): State {
    match target
    case ByName(name) => Emit(s.(known := s.known + {name}), IngestAssigned(name, field, value))
    case ById(id) =>
      match uuid(id)
      case None => Fail(s, InvalidSelectorId)
      case Some(canonical) => Emit(s, UpdateAssigned(canonical, field, value))
  }

  /** Both ids are validated, so a link with two unreadable ids reports two issues. */
  function CheckId(uuid: string -> Option<string>, s: State, id: string): State {
    if uuid(id).None? then Fail(s, InvalidSelectorId) else s
  }

  function LinkStep(uuid: string -> Option<string>, s: State, source: Selector, target: Selector,
                    linkType: LinkType, metadata: Metadata): State {
    match (source, target)
    case (ByName(a), ByName(b)) =>
      if a in s.known && b in s.known then Emit(s, Link(linkType, metadata))
      else
        Emit(Emit(Emit(s, Ingest(a, map[])), Ingest(b, map[])).(known := s.known + {a, b}), Link(linkType, metadata))
    case (ById(a), ById(b)) =>
      if uuid(a).Some? && uuid(b).Some? then Emit(s, LinkIds(uuid(a).value, uuid(b).value, linkType, metadata))
      else CheckId(uuid, CheckId(uuid, s, a), b)
    case _ => Fail(s, MixedSelectorLink)
  }

  function ExtinguishStep(uuid: string -> Option<string>, s: State, target: Selector): State {
    match target
    case ByName(name) => Emit(s, Delete(name))
    case ById(id) =>
      match uuid(id)
      case None => Fail(s, InvalidSelectorId)
      case Some(canonical) => Emit(s, Extinguish(canonical))
  }

  function Step(uuid: string -> Option<string>, s: State, intent: Intent): State
    decreases intent
  {
    match intent
    case Bulk(intents) => Fold(uuid, s, intents)
    case UpsertNode(node, metadata) => UpsertStep(uuid, s, node, metadata)
    case AssignAttribute(target, field, value) => AssignStep(uuid, s, target, field, value)
    case CreateLink(source, target, linkType, metadata) => LinkStep(uuid, s, source, target, linkType, metadata)
    case FlowLink(source, target) => LinkStep(uuid, s, source, target, FlowLinkType, map[])
    case ExtinguishNode(target) => ExtinguishStep(uuid, s, target)
    case SelectNodes(pattern, condition) => Emit(s, Select(pattern, condition))
    case SetFormula(atom, field, formula) => Emit(s, Formula(atom, field, formula))
    case AddGuardian(atom, field, operator, threshold, action) => Emit(s, Guardian(atom, field, operator, threshold, action))
  }

  function Fold(uuid: string -> Option<string>, s: State, intents: seq<Intent>): State
    decreases intents
  {
    if intents == [] then s else Step(uuid, Fold(uuid, s, intents[..|intents| - 1]), intents[|intents| - 1])
  }

  function ToTasks(uuid: string -> Option<string>, intents: seq<Intent>): Result {
    var s := Fold(uuid, State([], [], {}), intents);
    if s.errors != [] then Issues(s.errors) else Tasks(s.tasks)
  }

  // ---------- The bridge as the code runs it ----------

  /** The lists and the set that the compile methods append to. */
  class Compiler {
    const uuid: string -> Option<string>
    var tasks: seq<Task>
    var errors: seq<IssueCode>
    var knownNameUpserts: set<string>

    constructor (uuid: string -> Option<string>)
      ensures this.uuid == uuid && Now() == State([], [], {})
    {
      this.uuid := uuid;
      tasks, errors, knownNameUpserts := [], [], {};
    }

    function Now(): State
      reads this
    {
      State(tasks, errors, knownNameUpserts)
    }

    method ValidateUuid(id: string) returns (canonical: Option<string>)
      modifies `errors
      ensures canonical == uuid(id) && Now() == CheckId(uuid, old(Now()), id)
    {
      canonical := uuid(id);
      if canonical.None? { errors := errors + [InvalidSelectorId]; }
    }

    method CompileUpsert(node: Selector, metadata: Metadata)
      modifies this
      ensures Now() == UpsertStep(uuid, old(Now()), node, metadata)
    {
      if node.ByName? {
        knownNameUpserts := knownNameUpserts + {node.value};
        tasks := tasks + [Ingest(node.value, metadata)];
        return;
      }
      var id := ValidateUuid(node.value);
      if id.Some? && metadata != map[] {
        tasks := tasks + [UpdateAsteroid(id.value, metadata)];
      }
    }

    method CompileAssign(target: Selector, field: string, value: AssignedValue)
      modifies this
      ensures Now() == AssignStep(uuid, old(Now()), target, field, value)
    {
      if target.ByName? {
        knownNameUpserts := knownNameUpserts + {target.value};
        tasks := tasks + [IngestAssigned(target.value, field, value)];
        return;
      }
      var id := ValidateUuid(target.value);
      if id.Some? {
        tasks := tasks + [UpdateAssigned(id.value, field, value)];
      }
    }

    method CompileLink(source: Selector, target: Selector, linkType: LinkType, metadata: Metadata)
      modifies this
      ensures Now() == LinkStep(uuid, old(Now()), source, target, linkType, metadata)
    {
      if source.ByName? && target.ByName? {
        if source.value in knownNameUpserts && target.value in knownNameUpserts {
          tasks := tasks + [Link(linkType, metadata)];
          return;
        }
        tasks := tasks + [Ingest(source.value, map[])];
        tasks := tasks + [Ingest(target.value, map[])];
        knownNameUpserts := knownNameUpserts + {source.value};
        knownNameUpserts := knownNameUpserts + {target.value};
        assert knownNameUpserts == old(knownNameUpserts) + {source.value, target.value};
        tasks := tasks + [Link(linkType, metadata)];
        return;
      }
      if source.ById? && target.ById? {
        var sourceId := ValidateUuid(source.value);
        var targetId := ValidateUuid(target.value);
        if sourceId.Some? && targetId.Some? {
          tasks := tasks + [LinkIds(sourceId.value, targetId.value, linkType, metadata)];
        }
        return;
      }
      errors := errors + [MixedSelectorLink];
    }

    method CompileExtinguish(target: Selector)
      modifies this
      ensures Now() == ExtinguishStep(uuid, old(Now()), target)
    {
      if target.ByName? {
        tasks := tasks + [Delete(target.value)];
        return;
      }
      var id := ValidateUuid(target.value);
      if id.Some? {
        tasks := tasks + [Extinguish(id.value)];
      }
    }

    method CompileIntent(intent: Intent)
      modifies this
      ensures Now() == Step(uuid, old(Now()), intent)
      decreases intent
    {
      hide UpsertStep, AssignStep, LinkStep, ExtinguishStep;
      match intent
      case Bulk(intents) =>
        for i := 0 to |intents|
          invariant Now() == Fold(uuid, old(Now()), intents[..i])
        {
          assert intents[..i + 1][..i] == intents[..i];
          CompileIntent(intents[i]);
        }
        assert intents[..|intents|] == intents;
      case UpsertNode(node, metadata) =>
        CompileUpsert(node, metadata);
      case AssignAttribute(target, field, value) =>
        CompileAssign(target, field, value);
      case CreateLink(source, target, linkType, metadata) =>
        CompileLink(source, target, linkType, metadata);
      case FlowLink(source, target) =>
        CompileLink(source, target, FlowLinkType, map[]);
      case ExtinguishNode(target) =>
        CompileExtinguish(target);
      case SelectNodes(pattern, condition) =>
        tasks := tasks + [Select(pattern, condition)];
      case SetFormula(atom, field, formula) =>
        tasks := tasks + [Formula(atom, field, formula)];
      case AddGuardian(atom, field, operator, threshold, action) =>
        tasks := tasks + [Guardian(atom, field, operator, threshold, action)];
    }
  }

  method ToAtomicTasks(uuid: string -> Option<string>, intents: seq<Intent>) returns (r: Result)
    ensures r == ToTasks(uuid, intents)
  {
    hide Step;
    var c := new Compiler(uuid);
    for i := 0 to |intents|
      invariant c.uuid == uuid && c.Now() == Fold(uuid, State([], [], {}), intents[..i])
    {
      assert intents[..i + 1][..i] == intents[..i];
      c.CompileIntent(intents[i]);
    }
    assert intents[..|intents|] == intents;
    return if c.errors != [] then Issues(c.errors) else Tasks(c.tasks);
  }
}
