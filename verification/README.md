# Verified model of the event-sourced graph backend

A Dafny model of the logic at the core of the backend: the two formula evaluators, the command
compiler (lexer, parser, planner, bridge), the read-model projector with its counters, the
concurrent protocols around the event log, and the executor's lazily loaded context together with
the contract compiler.  `dafny verify dfyconfig.toml` checks everything.

How the parts hang together:

- **Formula evaluation.**  `FormulaGraph` gives dependency graphs a declarative meaning (reachable
  cycles, and a unique aggregate on the acyclic part) that knows nothing about caches or visiting
  order; a leaf whose text is the marker counts as circular, as it does in the code.  `CalcEngine`
  is the directed engine with its shared cache written while keys are still in progress; it is
  proved equal to that meaning.  `LegacyCalc` is the older undirected engine, proved right whenever
  it does not raise the alarm; `LegacyExactness` says exactly when it never raises a false one.
  `Aggregation` connects collected lists with order-free aggregates.
- **Command compiler.**  `Lexer` and `Parser` are the imperative scanner and cursor parser, proved
  against recursive accounts; `Syntax` gives the surface forms and `RoundTrip` proves that each lexes
  and parses to its tree, `Derivation` the converse, that nothing else is accepted, `Rejection` that
  errors point at tokens of which they are true, and `Image` that the well-formed trees are exactly
  those the parser can return.  `Planner` and `Bridge` produce
  intents and tasks; `PlanMeaning` says which, where and in which direction, `PlanToTasks` proves
  ingests once and before use across both passes, `LinkExecution` what executing the tasks links,
  `Reassociation` that chains plan alike however they associate, and `TopLevel` treats the quote- and
  parenthesis-aware splitter.
- **Projector.**  `ReadModel` gives each event's effect on the tables and the invariants of every
  well-formed log, `Redelivery` at-least-once delivery, `Rollups` the counters as functions of the
  tables and the fast path that skips recomputing them, and `Projector` the service that updates
  tables, decides and recounts.  `EventMeaning` and `CounterMeaning` say of rows, keys and numbers what
  events do and counters count.  `Guardian` and `Tables` supply alerts and table names.
- **Protocols.**  `Idempotency`, `Occ`, `Branches` and `BranchNames` are transition systems over
  begin, lock, read, write, commit and abort steps.  Locks are taken on hashes that may collide and
  are held to the end of the transaction; reads see committed rows only.  A run is any sequence of
  steps of any clients, and a step that is not enabled changes nothing, so the theorems are about
  every interleaving.  `IdempotentRequest`, `OccGuard` and `BranchPromotion` write the services'
  own control flow on top, with arbitrary other clients moving between any two steps.  `Overtaking`
  relates the order of appends in a run to the numbers on the log.
- **Executor and contracts.**  `Hydration`, `Preload`, `PartialRuns`, `Lookups` and `TaskContext` compare
  the partially loaded context with the whole snapshot; `Capabilities` and `EffectiveContract` treat the fold that
  compiles a table's effective contract, and `ContractMeaning` says what ends up in it.

Six promises turned out to hold only under a condition.  Each has its exact condition and a concrete
input on which it fails:

- acyclic keys of the older engine: `LegacyExactness.LegacyExactIff`, `LegacyExactness.SmallestFalseAlarm`;
- counters after skipped updates, where the marker text itself is written as data:
  `Rollups.SkipIsExact` for one update, `Rollups.SkippedBatchIsExact` for a batch,
  `Rollups.MarkerTextMakesCountersStale`;
- hydration against starting from the whole snapshot, where an extinguished row is put back:
  `Hydration.LazyEqualsEagerIff`, `Hydration.GalaxyLosesRelinkedBond`;
- the partial load being enough for every planned task: it is for all rows that tasks name by id and
  for sibling bonds (`PartialRuns.PlannedTasksReadTheSame`), and LINK creates a bond in both contexts or
  in neither (`Lookups.LinkFindsAlike`).  Four things differ:
  - the filter that closes a deletion drops loaded bonds whose other end was not loaded, and a later
    deletion misses them: `PartialRuns.ConnectedBondsAgreeIff`, `PartialRuns.SameBondsRecordedIff`,
    `PartialRuns.SecondDeletionMissesBond`;
  - INGEST falls back on the persisted row, which an earlier task may have changed or deleted, and
    revives it where the full context creates a new row: `Lookups.IngestCreatesAlikeIff`,
    `Lookups.IngestReusesAlikeIff`, `Lookups.OutdatedRowIsRevived`;
  - EXTINGUISH of a target whose id no held row has compares texts, of held rows only:
    `Lookups.TargetFindsAlikeIff`, `Lookups.TextTargetIsNotLoaded`;
  - LINK on an edge with several persisted bonds, which the unique index leaves possible for a relation
    stored in both directions, fails unless one is held, and LINK loads none:
    `Lookups.LinkFailsAlikeIff`, `Lookups.DoubledEdgeFails`;
- a planned link being the link that is made: links between names travel as bare tasks that join the two
  rows ingested last, so of a chain of three or more new names only the last two get linked:
  `LinkExecution.LinksMadeAsPlannedIff`, `LinkExecution.NameChainMadeAsPlannedIff`,
  `LinkExecution.NameChainLinksItsLastTwo`;
- guarded commits raising the entity's committed number, where an unguarded writer overtakes:
  `Overtaking.GuardedCommitRaisesIff`, `Occ.OvertakenCommitDoesNotRaise`.

Numbers are exact reals.  Regular expressions, number parsing, `str` and `repr`, id validation, hash
functions and the clock are parameters, about which nothing is assumed.

## Model

| member | source | states |
|---|---|---|
| CalcEngine.Evaluator.ResolveField | app/services/calc_engine_service.py:303-349 | Terminates although keys recur; the result, and every cache entry including those written while their key is still on the stack, is the denotation of the key |
| CalcEngine.Evaluator.ResolveSources | app/services/calc_engine_service.py:331-347 | The loop over the FLOW sources yields the declarative combination of their denotations: circular if one is, else the aggregate of the numeric ones |
| CalcEngine.Evaluator.EvaluateAtoms | app/services/calc_engine_service.py:351-378 | Exactly the metadata and registry fields of every active atom are calculated, each to its denotation, whatever the visiting order |
| CalcEngine.Evaluate | app/services/calc_engine_service.py:209-378 | From atoms, bonds and contracts to values: exactly the metadata and registry fields of the atoms are calculated, each to the value its key has in the dependency graph; what those values are in terms of bonds and numbers is said by the next rows |
| CalcEngine.FormulaFieldMeans | app/services/calc_engine_service.py:243-349 | A formula field is circular iff an attribute flowing in over a FLOW bond from an active atom is; otherwise it is the sum, mean, least, greatest or count of those attributes that are numbers, said with <= and >= on the numbers themselves |
| CalcEngine.PlainFieldMeans | app/services/calc_engine_service.py:316-321 | A field without a formula has its number as value, or stays as it is |
| CalcEngine.FormulaForMeans | app/services/calc_engine_service.py:274-286 | The registry's formula wins over a text starting with an equals sign; an unreadable one is a sum without attribute |
| CalcEngine.NodeMeans | app/services/calc_engine_service.py:222-241 | An atom's formulas are those registered by the contract of its table, which the first of six metadata keys or the value names |
| Tables.FirstKeyNames | app/services/universe/types.py:21-27 | The first of the keys that holds a non-blank text names the table, trimmed |
| Tables.NoKeyNames | app/services/universe/types.py:29-34 | Without such a key the prefix of a text value does, else the table is Uncategorized |
| CalcEngine.EntryMeans | app/services/calc_engine_service.py:137-163 | A registry entry contributes iff it is enabled, has a target field and a readable formula with an attribute |
| Values.StripMeans | app/services/calc_engine_service.py:93-95 | Stripping cuts off the blanks at both ends and nothing else |
| Values.CaseMeans | app/services/table_contract_effective.py:45-53 | Case mapping pairs the 26 letters and leaves every other character alone |
| CalcEngine.TargetFieldMeans | app/services/calc_engine_service.py:122-128 | The target field is what stands behind the last dot, trimmed |
| CalcEngine.UndottedTarget | app/services/calc_engine_service.py:122-128 | Without a dot the target field is the whole target, trimmed |
| CalcEngine.FlowSpellings | app/services/bond_semantics.py:6-26 | A bond is a data flow iff its type, trimmed, in upper case and with underscores, is one of four words |
| CalcEngine.NumbersRead | app/services/calc_engine_service.py:338-345 | Numbers and readable texts count as numbers, error markers do not |
| CalcEngine.BuildEnv | app/services/calc_engine_service.py:219-255 | Only FLOW bonds between active atoms become sources, in the direction source to target, and every source is a node |
| CalcEngine.BuildNodes | app/services/calc_engine_service.py:222-241 | One node per atom with its metadata and the formulas its table's contract registers |
| CalcEngine.RegistryFormulasForTable | app/services/calc_engine_service.py:130-165 | Disabled, targetless and unparsable entries contribute nothing; the loop computes the registry's formulas |
| CalcEngine.LastEntryWins | app/services/calc_engine_service.py:137-163 | The formula registered for a field is that of the last entry that contributes one |
| CalcEngine.AtomChangeIsLocal | app/services/calc_engine_service.py:209-349 | Replacing one atom of the list, with the same bonds and contracts, leaves the value of every key that neither belongs to it nor reaches it unchanged |
| FormulaGraph.CircularIff | app/services/calc_engine_service.py:307-349 | A key denotes the marker exactly when a dependency cycle or a marker leaf is reachable from it |
| FormulaGraph.DenoteEquation | app/services/calc_engine_service.py:288-349 | The denotation satisfies the formula equations: leaves are their values, formulas combine their sources |
| FormulaGraph.CombineMeans | app/services/calc_engine_service.py:288-301 | A formula is circular iff a source is; otherwise MIN is the number of a source that none undercuts, MAX one that none exceeds, COUNT how many sources are numbers, AVG the sum over that, and without numbers all are zero |
| FormulaGraph.TotalMeans | app/services/calc_engine_service.py:289-292 | The sum is zero of nothing and grows by each further number |
| FormulaGraph.DenotationIsUnique | app/services/calc_engine_service.py:303-349 | Any valuation that satisfies the equations and marks the circular keys is the denotation |
| FormulaGraph.DenotationIsLocal | app/services/calc_engine_service.py:303-349 | The denotation of a key depends only on the keys reachable from it |
| Aggregation.AggregateMatches | app/services/calc_engine_service.py:288-301 | Aggregating the numbers collected in any order gives the order-free sum, mean, least, greatest or count of the sources |
| LegacyCalc.Evaluator.ResolveValue | app/services/calc_service.py:87-133 | Computes the recursive account of the resolver and never overwrites a cache entry |
| LegacyCalc.Evaluator.CollectNumbers | app/services/calc_service.py:114-127 | The loop over the neighbours collects the numbers and notices a circular one, over the shared cache |
| LegacyCalc.Evaluator.EvaluateUniverse | app/services/calc_service.py:135-158 | All queries share one cache; no assignment ever replaced a value |
| LegacyCalc.ResolveKeeps | app/services/calc_service.py:87-133 | Entries once set never change; what is marked on the current path makes the whole call circular |
| LegacyCalc.LegacyIsTruthful | app/services/calc_service.py:63-158 | One-sided soundness for every iteration order: an answer other than the marker is the acyclic denotation on the undirected graph, and every key reaching a cycle gets the marker |
| LegacyCalc.FormulaFieldMeans | app/services/calc_service.py:98-127 | The denotation the engine is compared with: circular iff the attribute of a neighbour is, else the finished aggregate of the neighbours' numbers |
| LegacyCalc.PlainFieldMeans | app/services/calc_service.py:87-133 | Plain fields are their finished number or stay as they are, and so do unreadable formulas |
| LegacyCalc.NumbersRead | app/services/calc_service.py:9-24 | Numbers and readable texts count as numbers, nothing else |
| LegacyCalc.FinalizeMeans | app/services/calc_service.py:42-46 | A number within a billionth of an integer becomes that integer, any other stays |
| LegacyCalc.RoundMeans | app/services/calc_service.py:42-46 | Rounding goes no farther than a half, to the even integer of two |
| LegacyCalc.BuildAdjacency | app/services/calc_service.py:76-83 | Two atoms are neighbours iff a bond joins them in either direction |
| LegacyExactness.LegacyExactIff | app/services/calc_service.py:87-133 | The engine is exact for all iteration orders iff no dependency walk over distinct atoms returns to its first atom at a formula that is not circular |
| LegacyExactness.RunIsExact | app/services/calc_service.py:87-133 | Without such a walk every answer and every cache entry is exact |
| LegacyExactness.RevisitShows | app/services/calc_service.py:87-133 | With such a walk there is an order of neighbours, atoms and fields that makes the engine raise a false alarm |
| LegacyExactness.SmallestFalseAlarm | app/services/calc_service.py:101-133 | Two linked atoms on which an acyclic formula is answered with the marker |
| Lexer.Tokenize | app/services/parser2/lexer.py:9-74 | The dispatch loop makes progress at every turn and produces the tokens and errors of the recursive account |
| Lexer.ConsumeString | app/services/parser2/lexer.py:76-105 | Reads up to the closing quote with backslash escapes undone, or reports the unterminated string |
| Lexer.ConsumeAtom | app/services/parser2/lexer.py:107-123 | The atom is the slice up to the first character that stops an atom |
| Lexer.AtomsAreMaximal | app/services/parser2/lexer.py:107-123 | The stop set agrees with the dispatcher: an atom is dispatched exactly at a character that does not stop one (a lone minus aside), so scanning always moves, and it runs to a stop or the end |
| Lexer.TokensAreFaithful | app/services/parser2/lexer.py:9-74 | Spans are ordered and disjoint, and every token but a string equals its slice of the source |
| Lexer.GapsAreWhitespace | app/services/parser2/lexer.py:9-74 | In error-free input whatever no token covers is whitespace |
| Lexer.EofComesLast | app/services/parser2/lexer.py:70-74 | The token list is closed by exactly one end marker |
| Lexer.UnquoteInvertsEscape | app/services/parser2/lexer.py:76-105 | For every string, reading its escaped and quoted form gives the string back |
| Parser.Service.ParseText | app/services/parser2/parser.py:40-79 | Lexical errors win; otherwise the parse result is the grammar's, and the cursor never leaves the token list |
| Parser.Service.ParseStatementExpression | app/services/parser2/parser.py:105-122 | Assignment, flow, extinguish or expression as the grammar decides, with the same errors |
| Parser.Service.ParseAssignmentValue | app/services/parser2/parser.py:124-137 | A string, or an atom before the end, a comma or a closing parenthesis, is a literal; anything else is an expression |
| Parser.Service.ParseRelationExpression | app/services/parser2/parser.py:139-144 | Left-associative chain of `+`, cursor and errors as the grammar has them |
| Parser.Service.ParseTypeExpression | app/services/parser2/parser.py:146-151 | Left-associative chain of `:` |
| Parser.Service.ParseUnaryExpression | app/services/parser2/parser.py:153-156 | Prefix minus, nested freely |
| Parser.Service.ParsePrimaryExpression | app/services/parser2/parser.py:158-170 | Operand or error at the offending token |
| Parser.Service.ParseGroupOrParenthesized | app/services/parser2/parser.py:172-192 | One item in parentheses is the item itself, several make a group |
| Parser.Service.ParseEntityOrReference | app/services/parser2/parser.py:194-226 | Adjacent atoms join to one name; a dot makes a reference |
| Syntax.WriteFits | app/services/parser2/parser.py:139-226 | The rendering of a well-formed tree is legal at its precedence level and stands for the tree, whichever subtrees get an extra pair of parentheses |
| Syntax.WriteStatementFits | app/services/parser2/parser.py:105-137 | The same for statements |
| RoundTrip.ParseWritten | app/services/parser2/parser.py:40-79 | The round trip for every surface form: names as runs of bare atoms and quoted strings, `:=` or `=`, parentheses anywhere and as many as one likes, any whitespace that keeps the lexemes apart; the text lexes and parses to the form's tree |
| RoundTrip.TextRoundTrip | app/services/parser2/parser.py:40-79 | Every well-formed tree is recovered from its rendering with quoted, escaped names, the parentheses it needs and one more pair around each kind of subtree that is asked for; none asked for is the minimal form, all of them the full one |
| Derivation.AcceptedIsSpelled | app/services/parser2/parser.py:40-79 | The converse: an accepted text has no lexical errors, and all its tokens before the end marker are a surface form of the tree it is accepted as |
| Derivation.AcceptedIffSpelled | app/services/parser2/parser.py:40-79 | A text is accepted as a tree iff it has no lexical errors and its tokens, all of them, are a surface form of that tree |
| Rejection.RejectionIsJustified | app/services/parser2/parser.py:40-79 | Lexical errors come first, blank input is empty, and any other syntax error points at a token of which its code is true: no operand can start there, no parenthesis closes, nothing may follow, and so on |
| Derivation.SpellingIsUnambiguous | app/services/parser2/parser.py:105-226 | No sequence of tokens is a surface form of two trees |
| Image.AcceptedIsWellFormed | app/services/parser2/parser.py:105-226 | Whatever the parser accepts is a well-formed tree |
| Image.ParsesIffWellFormed | app/services/parser2/parser.py:40-79 | A tree is the parse of some text iff it is well formed, so the round trip covers every tree the parser can return |
| Planner.Service.PlanTree | app/services/parser2/planner.py:112-118 | One envelope of intents or the errors, from a fresh set of planned upserts; which intents, in which order and direction, is said by the following PlanMeaning rows |
| Planner.Service.CompileStatementNode | app/services/parser2/planner.py:221-275 | Statement compilation over the shared set of planned upserts agrees with the recursive account |
| Planner.Service.CompileOperandNode | app/services/parser2/planner.py:277-335 | Operand compilation likewise |
| Planner.Service.CompileChain | app/services/parser2/planner.py:337-387 | A chain first emits its operands' intents, then links adjacent operands; relation chains end in the last operand, type chains in the first |
| Planner.Service.Resolve | app/services/parser2/planner.py:389-433 | A name is upserted only the first time it is planned, and only where creation is asked for |
| PlanMeaning.ChainLinkMeans | app/services/parser2/planner.py:349-355 | Behind the operands' own intents stands, operand by operand from left to right, one CreateLink from every selector of an operand to every selector of the next, at the place its row and column give |
| PlanMeaning.ChainOwnIntents | app/services/parser2/planner.py:345-361 | A chain first plans what its operands plan, each intent at its place, and nothing besides that and its links |
| PlanMeaning.FlowMeans | app/services/parser2/planner.py:236-248 | A flow plans the source, the target, and one FlowLink from every selector of the source to every selector of the target, at its place |
| PlanMeaning.ExtinguishMeans | app/services/parser2/planner.py:250-258 | One extinguishing per selector of the target and nothing else |
| PlanMeaning.GroupMeans | app/services/parser2/planner.py:282-291 | A group stands for all selectors of its items, in order, and reports all their issues, in order |
| PlanMeaning.AssignmentMeans | app/services/parser2/planner.py:221-235 | The upsert the name may need, then the value for the field; lists item by item; other values are an error |
| PlanMeaning.ResolvedMeans | app/services/parser2/planner.py:389-433 | Which selector a name gets, and that an upsert is planned iff the name is unresolved, no id, new and to be created |
| PlanMeaning.TwoNames | app/services/parser2/planner.py:337-387 | Two new names under `+`, `:` or `->`: both are upserted, left first, and linked from left to right |
| Reassociation.PlanningIgnoresAssociation | app/services/parser2/planner.py:337-387 | Trees that differ only in how `+` and `:` chains associate have the same plan |
| Reassociation.RotationIsSamePlan | app/services/parser2/planner.py:715-723 | Rotating a chain leaves its flattened operands alone |
| Reassociation.ChainLinkCount | app/services/parser2/planner.py:349-355 | A chain adds the sum of left times right selector counts over adjacent operands |
| Reassociation.ChainAddsItsLinks | app/services/parser2/planner.py:337-361 | Nothing else is added to what the operands emit |
| Reassociation.LinkPosition | app/services/parser2/planner.py:349-355 | Each source is linked with each target, sources outermost |
| TopLevel.SplitTopLevel | app/services/parser2/planner.py:449-481 | The split respects quotes and parentheses; parts are the stripped pieces between top-level delimiters |
| TopLevel.CountTopLevelOperator | app/services/parser2/planner.py:648-669 | Counts the delimiters the splitter splits at |
| TopLevel.SplitMatchesCount | app/services/parser2/planner.py:449-481 | One more part than delimiters counted, and the unstripped parts rejoin to the input |
| TopLevel.PartsStandAlone | app/services/parser2/planner.py:449-481 | Each part, scanned by itself, contains no top-level delimiter |
| TopLevel.PartsHaveNoDelimiter | app/services/parser2/planner.py:449-481 | The same for the stripped parts that are returned |
| TopLevel.PlainCounts | app/services/parser2/planner.py:648-669 | Outside quotes and parentheses every occurrence of the operator counts |
| TopLevel.QuotedCountsNothing | app/services/parser2/planner.py:648-669 | From a quote to the next of its kind nothing counts, and the depth is as before |
| TopLevel.ParenthesesCountNothing | app/services/parser2/planner.py:648-669 | Between a parenthesis and the one that closes it nothing counts, however nested the text between |
| Bridge.ToAtomicTasks | app/services/parser2/bridge.py:44-52 | All tasks in intent order, or all the errors and no task; which tasks is said by the next rows |
| PlanMeaning.TasksIffBridgeable | app/services/parser2/bridge.py:44-52 | Tasks come out iff every intent, however deeply nested, has readable ids and no link mixes a name with an id |
| PlanMeaning.LinkOfIdsMeans | app/services/parser2/bridge.py:265-274 | A link of two ids becomes one task with the canonical ids of its source and its target, in this order |
| PlanMeaning.LinkOfNamesMeans | app/services/parser2/bridge.py:251-263 | A link of two names ingests both, source first, unless both are known, and then links |
| PlanMeaning.IssuesMean | app/services/parser2/bridge.py:276-319 | Each unreadable id of an intent is reported behind the earlier issues, and a link of a name and an id as mixed |
| PlanMeaning.CommandTasksMean | app/services/parser2/bridge.py:118-149 | Selections, formulas and guardians are handed on as they are |
| PlanMeaning.OtherTasksMean | app/services/parser2/bridge.py:158-307 | Upserts, assignments and extinguishing of names and of ids become the tasks of the same subject |
| Bridge.Compiler.CompileIntent | app/services/parser2/bridge.py:54-156 | Dispatch appends to tasks and errors as the pure step does |
| Bridge.Compiler.CompileUpsert | app/services/parser2/bridge.py:158-198 | A name is ingested and becomes known; a valid id is updated only if there is metadata, an invalid one is an error |
| Bridge.Compiler.CompileAssign | app/services/parser2/bridge.py:200-238 | A name is ingested with the assigned field and becomes known; an id must be valid and is updated |
| Bridge.Compiler.CompileLink | app/services/parser2/bridge.py:240-281 | Two names give a bare LINK, after ingests of both unless both are known; two ids must be valid; mixed selectors are an error |
| Bridge.Compiler.CompileExtinguish | app/services/parser2/bridge.py:283-307 | Extinguish by id or by target name |
| PlanToTasks.PlanThenBridge | app/services/parser2/bridge.py:44-52 | For link and flow statements over unresolved names, plan then bridge never fails and translates intent by intent, in order |
| PlanToTasks.EachNameIngestedOnce | app/services/parser2/planner.py:422-433 | Each distinct name of the statement is ingested exactly once, and nothing else is |
| PlanToTasks.LinksFollowIngests | app/services/parser2/bridge.py:251-263 | Every LINK comes after the ingests of both of its names |
| LinkExecution.LinksMadeAsPlannedIff | app/services/task_executor/families/bond_mutation.py:28-48 | A bare LINK joins the two rows ingested last; executing a link or flow statement makes the planned links iff each of them joins the two names upserted last before it |
| LinkExecution.NameChainLinksItsLastTwo | app/services/task_executor/families/bond_mutation.py:28-48 | Executing the tasks of a chain of n new names makes n - 1 links, all of them between its last two names |
| LinkExecution.NameChainMadeAsPlannedIff | app/services/task_executor/families/bond_mutation.py:28-48 | A chain of different new names is linked as planned iff it has two names; a longer one links its last two again and again |
| ReadModel.RunsStayConsistent | app/services/read_model_projector.py:498-673 | Over every well-formed log: deleted flag and timestamp agree, at most one active bond per relation, active bonds have two active endpoints, and no row disappears or changes owner, creation time or a past deletion |
| ReadModel.HistoryStaysConsistent | app/services/read_model_projector.py:498-673 | Replaying a well-formed log from the empty tables is consistent at every point, and no row is lost from any point to the end |
| EventMeaning.MetadataUpdateMeans | app/services/read_model_projector.py:531-569 | On the owner's row removed keys, trimmed, are gone, the patch's other keys have its values, every other key and row is as before |
| EventMeaning.MetadataUpdateMisses | app/services/read_model_projector.py:531-563 | Invalid payloads and rows of others change nothing |
| EventMeaning.CreatedMeans | app/services/read_model_projector.py:498-529 | The row is as the event says, active, with its first creation time; no other row changes |
| EventMeaning.ValueUpdateMeans | app/services/read_model_projector.py:606-626 | Only the value of the owner's active row changes |
| EventMeaning.AsteroidDeletedMeans | app/services/read_model_projector.py:571-604 | The active row and exactly the owner's active bonds that have it as an end are marked deleted as of the event |
| EventMeaning.BondFormedMeans | app/services/read_model_projector.py:628-651 | The bond is inserted unless its id is known or an active bond of the same owner, ends and kind is there |
| EventMeaning.BondDeletedMeans | app/services/read_model_projector.py:653-673 | The owner's active bond is marked deleted as of the event |
| EventMeaning.ActivityRecords | app/services/read_model_projector.py:236-256 | Events on branches change nothing; every other event is recorded once under its id |
| Redelivery.SuffixRedelivery | app/services/read_model_projector.py:101-204 | Redelivering any suffix of a well-formed log to the tables that absorbed it changes no atom and no bond |
| Redelivery.WholeLogRedelivery | app/services/read_model_projector.py:101-204 | The same for the whole log, including undelete by upsert and cascaded deletes |
| Redelivery.RowRedelivery | app/services/read_model_projector.py:498-626 | For one row, a second pass over its events ends where the first did |
| Redelivery.OldEventAloneIsNotHarmless | app/services/read_model_projector.py:531-569 | Redelivering a single old event out of order can change a row: the suffix condition is needed |
| Guardian.EvaluateRow | app/services/guardian_service.py:48-94 | Alerts are the distinct actions of the rules that fire, and there are some exactly when a rule fires |
| Guardian.FiresOnNumbers | app/services/guardian_service.py:25-43 | On two numbers a complete rule raises its action exactly when they compare as its operator says, for each of the five operators |
| Guardian.FiresOnTexts | app/services/guardian_service.py:45-47 | When a side is no number only == can hold, on the trimmed texts |
| Guardian.SilentRules | app/services/guardian_service.py:73-86 | Incomplete rules and rules on a field without a value raise nothing |
| Guardian.AlertedMeans | app/services/guardian_service.py:65-91 | A row has an alert iff its `_guardians` are a list with a rule that fires |
| Guardian.NoDictsNoAlert | app/services/guardian_service.py:55-80 | A row without a well-formed rule raises no alert |
| Projector.Service.ProjectAsteroidCreated | app/services/read_model_projector.py:498-529 | Inserts, or undeletes and overwrites keeping the creation time |
| Projector.Service.ProjectMetadataUpdated | app/services/read_model_projector.py:531-569 | Merges the patch, then removes keys, on the owner's row only |
| Projector.Service.ProjectAsteroidSoftDeleted | app/services/read_model_projector.py:571-604 | Deletes the row if active and every active bond touching it |
| Projector.Service.ProjectAsteroidValueUpdated | app/services/read_model_projector.py:606-626 | Sets the value of an active row only |
| Projector.Service.ProjectBondFormed | app/services/read_model_projector.py:628-651 | Inserts unless the id or the active relation is taken |
| Projector.Service.ProjectBondSoftDeleted | app/services/read_model_projector.py:653-673 | Deletes an active bond of the scope |
| Projector.Service.ApplyEventWithoutRollups | app/services/read_model_projector.py:101-204 | Branch events touch nothing; every main event is recorded once as activity; reports the galaxy to refresh |
| Projector.Service.ApplyEvents | app/services/read_model_projector.py:60-79 | Tables end as the log's replay; a galaxy's counters are recomputed from the final tables iff one of its events may not be skipped, else untouched; counters right before are right after iff recomputed or the number of marker leaves is unchanged, which orderly runs guarantee |
| Projector.Service.ApplyEvent | app/services/read_model_projector.py:81-91 | The same decision for a single event |
| Projector.Service.RefreshGalaxyRollups | app/services/read_model_projector.py:335-440 | Stores exactly the recomputed summary and health of the galaxy |
| CounterMeaning.SummaryMeans | app/services/read_model_projector.py:341-384 | Active rows, active bonds between active rows, and the distinct tables and constellations of those rows |
| CounterMeaning.FormulaFieldsMean | app/services/read_model_projector.py:385-391 | The number of (row, field) pairs whose text starts with an equals sign |
| CounterMeaning.GuardianRulesMean | app/services/read_model_projector.py:392-394 | The number of (row, position) pairs of dicts in `_guardians` lists |
| CounterMeaning.CircularFieldsMean | app/services/read_model_projector.py:421-426 | The number of (row, field) pairs whose calculated value is the marker |
| CounterMeaning.HealthMeans | app/services/read_model_projector.py:427-437 | Rows with an alert count once; quality loses fifteen per circular field and eight per such row, down to zero; below 60 is red, from 85 on green |
| CounterMeaning.EdgesMean | app/services/read_model_projector.py:374-418 | The calculation runs over the galaxy's active rows with an edge per data flow between them, from source to target |
| CounterMeaning.SkippedIff | app/services/read_model_projector.py:258-333 | Recounting is skipped exactly for updates that change nothing or that, with zero stored counters, touch no structural key and write no formula |
| Projector.CountSummary | app/services/read_model_projector.py:375-402 | The counting loops give distinct tables and constellations, active rows and bonds, and formula texts |
| Projector.CountHealth | app/services/read_model_projector.py:404-437 | Circular fields, alerted rows, guardian rules, quality and status as the declarative counters have them |
| Projector.CountersNeverGoStale | app/services/read_model_projector.py:60-79 | The exact outcome of a batch for the stored counters, judged against the final and against the earlier tables |
| Projector.Service.ApplyEventsAgain | app/services/read_model_projector.py:60-79 | Delivering any suffix of the absorbed log again changes no table and leaves right counters right, skipped or not |
| Rollups.SkipIsExact | app/services/read_model_projector.py:258-333 | A skipped update keeps fresh counters fresh iff its patch and removed keys leave the number of marker leaves of the active row they reach unchanged, which can be read off before applying it |
| Rollups.SkippedBatchIsExact | app/services/read_model_projector.py:60-79 | A batch all of whose events may be skipped, judged on the rows stored before it, leaves fresh counters right iff the galaxy has as many marker leaves after it as before |
| Rollups.SkippedBatchStaysFresh | app/services/read_model_projector.py:60-79 | It does so on runs whose skipped updates keep the marker leaves of the row they reach |
| Rollups.MarkerFreeLogsAreOrderly | app/services/read_model_projector.py:258-282 | Well-formed logs in which no metadata value is the marker text meet the batch theorem's conditions |
| Rollups.MarkerTextMakesCountersStale | app/services/read_model_projector.py:258-333 | Writing the marker text into a plain field is skipped and makes the circular-field counter stale |
| Rollups.NoMarkerTextKeepsSentinels | app/services/read_model_projector.py:258-282 | Without the marker text in patch and row, no marker leaf appears or vanishes |
| Rollups.ZeroCountersMeanQuiet | app/services/read_model_projector.py:268-269 | Zero bond, formula and guardian counters mean the galaxy has no edge, formula or rule |
| Rollups.QuietCalculated | app/services/read_model_projector.py:335-440 | In such a galaxy a field is circular exactly when its own text is the marker |
| Rollups.PlainChangeExact | app/services/read_model_projector.py:258-282 | The exact effect of such an update on summary and health |
| Idempotency.ExecutedAtMostOnce | app/api/runtime.py:123-152 | In every interleaving, with colliding lock hashes allowed, each slot has at most one committed execution and one record, and they correspond |
| Idempotency.SameAnswer | app/services/idempotency_service.py:72-89 | All successful responses for a slot are for one request hash and carry the one stored payload; they are equal when the loader inverts the dumper |
| Idempotency.RecordedSlotIsClosed | app/services/idempotency_service.py:81-86 | Once a slot has a record nobody executes for it, and only the recorded request ever did: a different hash never executes |
| Idempotency.HistoryIsPermanent | app/services/idempotency_service.py:91-116 | Records and committed executions are never lost, so late retries meet the same record |
| Idempotency.LookupIsUnique | app/services/idempotency_service.py:60-71 | On a table with one row per slot the query never finds two |
| IdempotentRequest.Database.RunScopedIdempotent | app/api/runtime.py:93-160 | The request's own control flow among arbitrary other clients: it ends replayed, executed and recorded, in conflict, or failed only for a raising operation or dumper or a lock never granted |
| IdempotentRequest.Database.Read | app/services/idempotency_service.py:60-89 | After the lock the request misses, hits its own hash or conflicts with another one |
| IdempotentRequest.Database.Leave | app/api/runtime.py:154-160 | What the client is told agrees with what the commit stored or the record holds |
| Occ.NoLostUpdate | app/services/task_executor/occ_guards.py:82-120 | In every interleaving, two transactions that passed the guard with the same expected number for the same entity and timeline and then wrote it cannot both commit |
| Occ.GuardedCommitMovesOn | app/services/task_executor/occ_guards.py:82-120 | After a guarded commit the entity's number is past the expected one and stays past it |
| Occ.DisciplinedCommitRaises | app/services/task_executor/occ_guards.py:82-120 | If the writers of that entity append under the timeline's lock, whatever others do elsewhere, a guarded commit raises the committed number from at most the expected one to more |
| Overtaking.GuardedCommitRaisesIff | app/services/task_executor/occ_guards.py:82-120 | In every run a guarded commit raises the entity's committed number iff no other transaction that appended the entity after the committing one's last append of it has committed |
| Overtaking.OvertakerHoldsNoLock | app/services/task_executor/occ_guards.py:96-102 | Every such overtaker appended without holding the timeline's lock |
| Overtaking.LogIsCommitted | app/services/event_store_service.py:12-35 | The log holds the events of the committed transactions and no others |
| Overtaking.LaterAppendsAreGreater | app/services/event_store_service.py:12-35 | Later appends, by whomever, get greater numbers |
| Occ.OvertakenCommitDoesNotRaise | app/services/event_store_service.py:12-35 | A run in which an unguarded writer overtakes a guarded one, whose commit then raises nothing |
| OccGuard.Database.EnforceExpectedEntityEventSeq | app/services/task_executor/occ_guards.py:82-120 | Among arbitrary other clients: no expectation, no effect; otherwise passes exactly when the number read under the lock is the expected one, and a conflict ends the transaction |
| OccGuard.Database.CurrentEntityEventSeq | app/services/task_executor/occ_guards.py:57-80 | The greatest visible number of the entity on the timeline, zero without events |
| OccGuard.Database.AppendEvent | app/services/event_store_service.py:12-35 | The event gets a number above every number handed out before and is pending in its transaction only |
| Branches.PromotedAtMostOnce | app/services/cosmos_service.py:402-454 | In every interleaving of promotions and other writes each branch event reaches the main timeline at most once |
| Branches.PromotionCopiesInOrder | app/services/cosmos_service.py:434-454 | A promotion commits one main event per event read, in branch order under rising numbers, with type, entity and payload kept, and main grows by exactly the reported count |
| Branches.PromotionReadsEverything | app/services/cosmos_service.py:417-432 | What a promotion reads is every event of the branch committed by then, in order |
| Branches.OnePromotionPerBranch | app/services/cosmos_service.py:410-416 | A branch is promoted at most once and is deleted from then on |
| Branches.BranchEventsInOrder | app/services/cosmos_service.py:417-432 | The query returns exactly the branch's committed events in sequence order |
| BranchPromotion.Database.PromoteBranch | app/services/cosmos_service.py:402-454 | The service's control flow among arbitrary other clients: not found, forbidden, or a commit that adds exactly the copies it reports |
| BranchNames.OneActiveBranchPerName | app/services/cosmos_service.py:330-400 | In every interleaving a galaxy has at most one active branch per normalized name, without the help of the unique index |
| BranchNames.ScanMeans | app/services/cosmos_service.py:330-400 | The scan refuses a name exactly when an active branch of the galaxy has it, up to blanks and case folding |
| BranchNames.BeginMeans | app/services/cosmos_service.py:330-400 | A request keeps its galaxy and trimmed name; a blank one ends at once |
| BranchNames.CommitMeans | app/services/cosmos_service.py:330-400 | A commit adds one active branch with that galaxy and name, and nothing else |
| Hydration.LazyEqualsEagerIff | app/services/task_executor_service.py:656-683 | Hydrating a partial context after any sequence of puts and extinguishes gives the maps of the context that started from the whole snapshot iff the partial context itself holds nothing it has recorded as extinguished |
| Hydration.HydrateMeans | app/services/task_executor_service.py:656-683 | Row by row: held rows win, the snapshot's come in, recorded ids stay out, a bond needs both its ends |
| Hydration.OpsMean | app/services/task_executor/families/extinguish.py:29-57 | Putting and extinguishing by id touch that id alone |
| PartialRuns.DeletionAt | app/services/task_executor/families/extinguish.py:117-184 | What a deletion does to one row and one bond: targets leave, touching bonds are recorded, bonds without both ends are dropped |
| Hydration.LazyEqualsEager | app/services/task_executor_service.py:656-683 | When the partial run puts nothing under an id it has recorded as extinguished, lazy and eager agree when hydrated and for the rest of the run |
| Hydration.RelinkedBondIsLost | app/services/task_executor/families/bond_mutation.py:113-148 | Extinguishing a bond and linking the same edge puts the still active row back; a later hydration loses it while the full context keeps it |
| Hydration.GalaxyLosesRelinkedBond | app/services/task_executor_service.py:668-675 | A concrete galaxy and partial context on which hydration and the full context disagree |
| Hydration.ReusedIdIsLost | app/services/task_executor/families/ingest_update.py:83-97 | An asteroid that ingesting by value puts back under its extinguished id is lost by hydration |
| TaskContext.Working.HydrateToFullScope | app/services/task_executor_service.py:656-683 | Held rows win over the snapshot, recorded ids stay out, bonds need both endpoints; a full context is left alone |
| TaskContext.Working.ExtinguishBond | app/services/task_executor/families/extinguish.py:20-71 | A held bond is dropped and recorded once; one that is not held is not found |
| TaskContext.Working.ExtinguishTarget | app/services/task_executor/families/extinguish.py:117-178 | The asteroid and the held bonds touching it leave and are recorded once |
| TaskContext.Working.ExtinguishAsteroids | app/services/task_executor/families/extinguish.py:115-184 | All targets in turn, then bonds without both endpoints are dropped |
| Preload.BuildPreloadPlan | app/services/task_executor_service.py:689-759 | Full on a branch or when some task is not plannable, else exactly the ids the tasks name; a partial plan covers the ids of each kind of task and no fuzzy deletion |
| Preload.LoadPartialMainState | app/services/task_executor_service.py:840-994 | Part of the snapshot: planned rows, siblings and endpoints of planned bonds, and all bonds of loaded asteroids where asked |
| Preload.SamePairMeans | app/services/task_executor_service.py:884-905 | Siblings are the bonds with the same set of ends |
| Preload.LoadInitialContext | app/services/task_executor_service.py:996-1022 | As loaded, before any task runs, the partial context holds for every planned task the rows, sibling bonds with endpoints, and connected bonds of the whole galaxy |
| PartialRuns.PlannedTasksReadTheSame | app/services/task_executor_service.py:689-759 | Along every handled run from the loaded context, the asteroids and bonds that tasks name by id, and the siblings of those bonds, read as in the full context; lookups by value, edge or text and connected bonds have their own rows |
| PartialRuns.AdriftIff | app/services/task_executor/families/extinguish.py:180-184 | The bonds that only the full context still holds are exactly those no operation concerned that were not loaded, or had an endpoint not loaded nor put when an earlier deletion filtered |
| PartialRuns.ConnectedBondsAgreeIff | app/services/task_executor/families/extinguish.py:149-156 | A deletion finds the connected bonds of the full context iff no such bond touches a target |
| PartialRuns.SameBondsRecordedIff | app/services/task_executor/families/extinguish.py:149-184 | The same bonds are reported extinguished iff every bond that a deletion missed is, by a later operation, extinguished by name or put again and then touched by a deletion; the condition is over load and operations only |
| PartialRuns.RecordedIff | app/services/task_executor/families/extinguish.py:54-66 | From a context that neither holds nor has recorded a bond, a run records it iff some operation extinguishes it by name or deletes an endpoint of what was last put under its id |
| PartialRuns.DeleteBatchReportsTheSameIff | app/services/task_executor/families/extinguish.py:149-184 | For a batch of deletions of loaded asteroids: the same bonds are reported iff every loaded bond with an endpoint that is not loaded is touched by the first deletion or by none |
| PartialRuns.SecondDeletionMissesBond | app/services/task_executor/families/extinguish.py:149-184 | Two deletions that are each loaded for: the second misses a bond that the filter of the first dropped |
| Lookups.IngestCreatesAlikeIff | app/services/task_executor/families/ingest_update.py:67-118 | After any operations INGEST creates a row in both contexts or in neither, iff it is not the case that no held row fits, the persisted candidate does, and every persisted row that fits was loaded, put or deleted |
| Lookups.IngestReusesAlikeIff | app/services/task_executor/families/ingest_update.py:67-116 | What INGEST reuses in the partial context the full one could reuse too, iff it does not fall back on a row that the run loaded, put or deleted |
| Lookups.IngestLeavesMeans | app/services/task_executor/families/ingest_update.py:82-116 | The lookup changes a context only when a partial one falls back: by the candidate's row, or to its hydration when that is of another table |
| Lookups.StrayIff | app/services/task_executor/families/ingest_update.py:82-97 | The full context holds a row that the partial one lacks exactly when it is a persisted row that was neither loaded, put nor deleted, and then unchanged |
| Lookups.OutdatedRowIsRevived | app/services/task_executor/families/ingest_update.py:82-97 | After a value change or a deletion of the only row, INGEST of its old value finds it in the partial context and none in the full one, although the named rows read the same |
| Lookups.LinkFindsAlike | app/services/task_executor/families/bond_mutation.py:80-147 | LINK, which looks at held and then at persisted bonds, creates a bond in both contexts or in neither; with at most one persisted bond on the edge, what is reused is held or found in the full context too |
| Lookups.OnEdgeMeans | app/services/task_executor/families/bond_mutation.py:80-133 | Bonds match an edge by kind in upper case and by source and target, a relation by its set of ends |
| Lookups.LinkFailsAlikeIff | app/services/task_executor/families/bond_mutation.py:114-136 | On an edge with several persisted bonds the persisted lookup fails in both contexts or in neither, unless it fails in the partial one and only the full one still holds a bond of the edge |
| Lookups.DoubledEdgeFails | app/services/task_executor/families/bond_mutation.py:114-136 | A relation stored in both directions: LINK fails in the context loaded for it and reuses a bond in the full one |
| Lookups.TargetFindsAlikeIff | app/services/task_executor/target_resolution.py:27-53 | A planned deletion by text finds the same rows in both contexts iff the id is held, or no unknown persisted row has the text nor, when no held row has it, contains it |
| Lookups.TextTargetIsNotLoaded | app/services/task_executor/target_resolution.py:36-53 | A target that is no row's id: nothing is found in the partial context, a row whose text contains it in the full one |
| Lookups.OnDemandPutsNothingNew | app/services/task_executor/families/ingest_update.py:95-97 | Putting a row or bond on demand that only the full context holds is no change to the full context |
| TaskContext.Working.FindForIngest | app/services/task_executor/families/ingest_update.py:67-116 | A held row that fits, else in a partial context the candidate, which is then held, or a row found after hydrating when the candidate is of another table |
| TaskContext.Working.FindForLink | app/services/task_executor/families/bond_mutation.py:80-147 | A held bond of the edge, else the one persisted one, which is then held; several persisted ones are an error |
| TaskContext.Working.FindAsteroidByTarget | app/services/task_executor/target_resolution.py:27-53 | The row with the id, else one with the text, else one containing it, else none |
| Preload.RunKeepsEndpoints | app/services/task_executor/families/bond_mutation.py:193-294 | While a bond with loaded endpoints is held they are held too, so retyping it puts a bond whose endpoints are held |
| Capabilities.OrderOfRowsIsIrrelevant | app/services/table_contract_effective.py:110-124 | Permuting the capability rows does not change the sorted active list |
| Capabilities.SortedActiveIsSorted | app/services/table_contract_effective.py:110-124 | Exactly the active capabilities, strictly ascending by order, lower-cased key, version, creation time and id |
| EffectiveContract.CompileEffectiveTableContract | app/services/table_contract_effective.py:127-233 | The capability-by-capability compiler computes the contract the following lemmas describe |
| ContractMeaning.RequiredFieldsMean | app/services/table_contract_effective.py:132-174 | A field is required iff the base contract or a capability lists it, trimmed and not blank; its source is the base contract, else the first capability that lists it |
| ContractMeaning.FieldTypesMean | app/services/table_contract_effective.py:45-53 | A field has a type iff an item types it; of several the last decides, key trimmed, type trimmed and in lower case |
| ContractMeaning.CompiledTypesMean | app/services/table_contract_effective.py:138-179 | The last capability that types a field decides it and is its source |
| ContractMeaning.BaseTypesMean | app/services/table_contract_effective.py:138-143 | A field that no capability types is typed as in the base contract, which is its source |
| ContractMeaning.RulesMean | app/services/table_contract_effective.py:144-212 | Each of the five lists of rules is made of the dicts of the lists of the same name, all of the base's among them and no text left out |
| ContractMeaning.DefaultsMean | app/services/table_contract_effective.py:201-207 | A default is that of the last capability that has one under the key, else the base contract's |
| ContractMeaning.OrderMeans | app/services/table_contract_effective.py:110-124 | Capabilities contribute by order index, key in lower case, version, creation time and id |
| ContractMeaning.TextBeforeMeans | app/services/table_contract_effective.py:117-123 | Keys are ordered by their first difference, a text before its extensions |
| ContractMeaning.ActiveMeans | app/services/table_contract_effective.py:110-116 | Exactly the capabilities that are not deleted and whose status reads active contribute |
| ContractMeaning.NormalizeMeans | app/services/table_contract_effective.py:33-42 | A normalized list holds the trimmed texts that are not blank |
| ContractMeaning.NormalizeOrder | app/services/table_contract_effective.py:33-42 | It holds them in the order of their first occurrence |
| EffectiveContract.AddCapability | app/services/table_contract_effective.py:162-212 | One more capability extends every part of the contract by its contribution |
| EffectiveContract.MergeRuleListWithSources | app/services/table_contract_effective.py:74-91 | Keeps the first rule of each text and stays aligned with the sources |
| EffectiveContract.MergeDictList | app/services/table_contract_effective.py:60-71 | The same without sources |
| EffectiveContract.MergeRequired | app/services/table_contract_effective.py:170-174 | Required fields stay trimmed and distinct, first contributor recorded |
| EffectiveContract.NormalizeStringList | app/services/table_contract_effective.py:33-42 | Trimmed, non-empty, distinct, first occurrences in order |
| EffectiveContract.RowOrderIsIrrelevant | app/services/table_contract_effective.py:127-233 | The compiled contract is the same for every permutation of the capability rows |
| EffectiveContract.RequiredAreRight | app/services/table_contract_effective.py:132-174 | Base required fields stay a prefix; the sources cover exactly the required fields; the first contributor wins |
| EffectiveContract.TypesAreRight | app/services/table_contract_effective.py:138-179 | The last contributor decides each field type and is its recorded source |
| EffectiveContract.RulesAreMergedRight | app/services/table_contract_effective.py:144-212 | Every rule list (unique rules, validators, formulas, physics rules, auto semantics) keeps the base as prefix, repeats no added rule, omits no contributed one, and is aligned with the first contributors |

## Left out

- SQL, sessions, HTTP and payload validation: tables are maps and sequences, payloads arrive decoded, and a payload that fails validation arrives marked as such.
- Decimal and float rounding, NaN and infinities: numbers are exact reals; the older engine's snapping to integers is kept, with ties to even.
- Formula errors: the calc engine's per-field error lists (`calc_errors`) are not recorded, only the values; a formula that does not parse is still valued as the code values it.
- Physics rows, `calc_state_rm` rows and `source_event_seq`: the skipped path does not refresh them, and they are not part of the counters.
- Regular-expression commands and metadata commands of the planner: only the syntax-tree path is planned, together with the two top-level scanning helpers.
- Case mapping outside ASCII: lower and upper case follow ASCII; branch names use an unspecified folding function.
- Rows behind names in `LinkExecution`: different names stand for different rows, and an ingest never fails.
- Fuzzy targets by planet or condition, which always load everything: the handlers' choices are inputs of the context model.
- In-place updates of shared row objects in the executor context: rows are values that are put back under their id.
- Commits by other transactions between a partial load and its completion: both read one snapshot; with such commits a completed context sees newer rows than an eager one.
- The first fallback of a galaxy without read-model rows to replaying its events: not part of the snapshot.
- Deadlock and lock timeouts: a client that waits too long gives up; nothing is said about fairness.
- Foreign-key row locks and unique indexes of the database: the protocols are proved without them, which only allows more interleavings.
- The base event recorded when a branch is created, and name rejection by the index: not part of this model.
- Parsing of the expected sequence number: it arrives as a number or is absent.
- Other services (onboarding, presets, star core, dashboards, mappers, import and export, authentication, streaming, migrations, frontend): small state machines or plumbing that would only add easy members.
- PlanToTasks.PlanThenBridge: covers link and flow statements over names that no resolver knows and that are not ids; extinguish and assignment are planned and bridged but not part of the ordering theorem.
- Occ.DisciplinedCommitRaises: asks that the writers of the entity append under the lock; `Overtaking.GuardedCommitRaisesIff` says what happens without it.
- Hydration.LazyEqualsEager: asks that bonds are put only while their endpoints are held, which the link handler checks and the preload guarantees for retyped bonds (`Preload.RunKeepsEndpoints`).
- PartialRuns.PlannedTasksReadTheSame: compares one sequence of context operations in both contexts, as long as the context is partial; that a handler chooses the same operations is not modelled beyond what it looks up here and in `Lookups`.
- Semantic effects of tasks (such as a new planet being inferred): they are computed from the tables of all held rows, so a partial context can report more of them than a full one; effects are not modelled.
- Order among several rows that a lookup could return: lookups are sets of possible answers, and which one comes first is not modelled.
- Equality of values in lookups: Python's `==` and the database's equality on JSON are taken to agree.
- EffectiveContract.RulesAreMergedRight: the text of a rule is a function of its key-value pairs, so two rules that differ only in the order of their keys count as the same, whereas the source's `repr` tells them apart.
