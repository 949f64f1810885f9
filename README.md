# Zero-trust ad blocking: a Dafny model of the list-and-rule reconciler

The program turns public ad-server feeds into Cloudflare Zero Trust Gateway
DNS lists and one blocking rule. Each run makes a full replacement:

1. delete the rule found by its description: the first rule whose description
   is the rule sentinel;
2. delete every list that carries the list sentinel;
3. create new lists of at most 1000 domains each, from the first 100000 domains;
4. create a new rule whose traffic expression references exactly those lists.

The feeds are fetched before anything else. The four stages then run one
after the other through `runPromisesInSequence`. A rejected request ends the
whole run.

The teardown deletes the id of the first sentinel rule only. If an account
starts with two sentinel rules with different ids, the second one survives a
successful run. Starting from at most one sentinel rule, a run leaves at most
one.

Two variants of the program exist, and both are modelled:

- **`src/index.ts` (current).** It builds its domain set from two feeds:
  - AdGuard's filter list: comment lines are dropped, and `||domain^…` rules
    are rewritten to the domain.
  - A hosts-style blacklist: lines with `#` are dropped, and `0.0.0.0` is
    removed.

  The AdGuard rewrite accepts an optional `@@` before `||`. AdGuard's
  exception rules (`@@||domain^`, which allow a domain) therefore become
  blocked domains like any other rule.

  Each line is trimmed and kept only if it matches the domain regex. The custom
  server `m.vpon.com` comes first, then the two feeds. The result is
  de-duplicated in first-occurrence order. Lists and the rule carry two
  different sentinel descriptions.
- **`index.ts` (legacy).** It takes every line of one raw feed unchecked, and
  marks lists and the rule with one shared sentinel.

## How the model is built

- **`Seqs`, `Text`**: the array and string built-ins the program uses, as
  functions with their laws. These are `filter`, `map`, `find`, `flatten`,
  `unique`, `split`, `join`, `includes`, first-match `replace`, `trim` and
  decimal rendering.
- **`Chunking`**: `Chunks` is the specification of `chunk`. `Chunk` is the
  source's loop, proved equal to it.
- **`Domains`**:
  - the domain regex as `IsDomain`, proved equivalent to the regex's own
    "labels, dot, top label" reading;
  - the two feed pipelines and their merge;
  - the legacy raw feed.
- **`Provider`**: the gateway account as a value (`Account`).
  - It holds lists and rules in provider order, the identifiers the provider
    will hand out next (`supply`), and the ordinals of the requests it will
    reject (`failing`).
  - It keeps a log of every request with its outcome.
  - One function per SDK request (`…Call`) gives its exact effect.
  - `Gateway` is the SDK client as a class whose methods update the account in
    place and are proved to act as those functions.
- **`Ownership`**: the sentinel filters (`filter` on a truthy id and an exact
  description; `find` on the description) and the two variants' sentinels.
- **`Traffic`**: the rule's traffic expression.
- **`Runner`**: `runPromisesInSequence` as a specification (`RunSpec`). It is
  generic in the task type, with laws for concatenation, stopping, log shape,
  ordering and preserved properties.
- **`Workflow`**: each orchestrator function as a function from the account
  before to the outcome, and the top-level sequence of four stages
  (`Reconcile`), instantiated for both variants.
- **`Orchestrator`**: the same functions as imperative methods on a `Gateway`.
  `RunPromisesInSequence` is a loop that stops at the first rejection. Each
  method is proved to end in the state and answer its `Workflow` function gives.
- **`Properties`**: what a run guarantees under any pattern of rejected
  requests:
  - it halts at the first rejection;
  - its changing requests come in stage order;
  - it leaves foreign lists and rules alone;
  - it keeps at most one managed rule;
  - on success the managed lists are exactly the new lists, and the rules are
    those the teardown left plus one new rule;
  - with no rejection and enough identifiers it succeeds.

## Model

| member | source | states |
|---|---|---|
| Seqs.Filter | src/index.ts:86 | the result holds only elements of the input that pass the test, and every element that passes |
| Seqs.FilterMembers | src/index.ts:86 | an element is kept exactly when it is in the input and passes the test |
| Seqs.FilterAppend | src/index.ts:86 | filtering a concatenation is the concatenation of the filtered parts, so the order of the input is kept |
| Seqs.FilterAll | src/index.ts:86 | a filter whose test holds for every element returns the input unchanged |
| Seqs.Map | src/index.ts:50 | the result has the input's length and holds f of each element at the same position |
| Seqs.FilterMapFilterMembers | src/index.ts:48-51 | an item survives a filter, map, filter chain exactly when some kept input line maps to it and it passes the last test |
| Seqs.FilterMapFilterSource | src/index.ts:48-51 | names the input line a surviving item came from |
| Seqs.Find | src/index.ts:138 | there is no result exactly when no element passes the test; a result is an element that passes |
| Seqs.FindIsFirst | src/index.ts:138 | the element found sits at a position before which no element passes |
| Seqs.Flatten | src/index.ts:27-29 | the reduce that concatenates the inner lists in order; `FlattenAppend` and `FlattenMembers` pin it down |
| Seqs.FlattenAppend | src/index.ts:27-29 | flattening a concatenation of lists concatenates their flattenings |
| Seqs.FlattenMembers | src/index.ts:27-29 | an element is in the flattening exactly when it is in one of the lists |
| Seqs.Unique | src/index.ts:23-25 | the result has no duplicates, contains every input element and nothing else, and is no longer than the input |
| Seqs.UniqueMembers | src/index.ts:23-25 | membership in the de-duplicated list is membership in the input |
| Seqs.UniqueFirstOccurrenceOrder | src/index.ts:23-25 | elements appear in the order of their first occurrences in the input, as a Set's insertion order gives |
| Seqs.UniqueHead | src/index.ts:23-25 | the input's first element stays first |
| Seqs.UniqueOfDistinct | src/index.ts:23-25 | a list without duplicates is returned unchanged |
| Seqs.UniqueIdempotent | src/index.ts:23-25 | de-duplicating twice is de-duplicating once |
| Seqs.UniqueDropsRepeat | src/index.ts:23-25 | [x, y, x] with x and y different becomes [x, y] |
| Text.IndexOf | src/index.ts:48 | the first position of a character, or the length when it is absent |
| Text.Split | src/index.ts:48 | split on a character gives at least one piece, and no piece contains the separator |
| Text.JoinSplit | src/index.ts:48 | joining the pieces of a split with the separator gives the text back |
| Text.Join | src/index.ts:169 | `join`: the pieces with the separator between each two; `JoinSplit`, `SplitJoin` and `JoinHasPiece` pin it down |
| Text.SplitJoin | src/index.ts:48 | splitting a join of separator-free pieces gives the pieces back |
| Text.SplitCount | index.ts:32 | a split has one more piece than the text has separators |
| Text.JoinHasPiece | src/index.ts:169 | every piece occurs in the joined text at a named position |
| Text.IndexOfSub | src/index.ts:49 | the first occurrence of a literal, or none when it occurs nowhere |
| Text.Contains | src/index.ts:49 | `includes`; `ContainsIff` states it holds exactly when the literal occurs |
| Text.ContainsIff | src/index.ts:49 | `includes` holds exactly when the literal occurs at some position |
| Text.ReplaceFirst | src/index.ts:61 | with no occurrence the text is unchanged; otherwise the first occurrence, and only it, is replaced, and the text before and after it is kept |
| Text.TrimStart | src/index.ts:50 | a suffix of the text, with only whitespace dropped and no whitespace left at its start |
| Text.TrimEnd | src/index.ts:50 | a prefix of the text, with only whitespace dropped and no whitespace left at its end |
| Text.Trim | src/index.ts:50 | the result is no longer than the text and neither starts nor ends with whitespace |
| Text.TrimIsMiddle | src/index.ts:50 | trim returns a middle slice of the text, with only whitespace around it and none at its ends |
| Text.TrimKeeps | src/index.ts:50 | a text with no whitespace at either end is its own trim, so trimming is idempotent |
| Text.DecimalString | src/index.ts:125 | the rendering of a number is a non-empty digit string without a leading zero |
| Text.DecimalRoundTrip | src/index.ts:125 | reading the rendered digits back gives the number |
| Text.DecimalInjective | src/index.ts:125 | different numbers render differently |
| Chunking.Chunks | src/index.ts:13-21 | every piece is non-empty and holds at most `size` items |
| Chunking.ChunksStep | src/index.ts:16-18 | one loop turn: the piece `slice(i, i + size)` followed by the pieces from `i + size` on |
| Chunking.Chunk | src/index.ts:13-21 | the loop that pushes `slice(i, i + size)` while stepping `i` by `size` returns exactly `Chunks` |
| Chunking.ChunksFlatten | src/index.ts:13-21 | concatenating the chunks in order gives the input back |
| Chunking.ChunksCount | src/index.ts:13-21 | there are ceil(n / size) chunks, none exactly for the empty input |
| Chunking.ChunksAt | src/index.ts:13-21 | chunk k is items k*size up to (k+1)*size or the end, and every chunk but the last is full |
| Domains.IsDomain | src/index.ts:43 | `validDomainRegex`; `AssembledIsDomain` and `DomainIsAssembled` prove it matches exactly the regex's strings |
| Domains.AssembledIsDomain | src/index.ts:43 | every string the regex matches (labels each followed by a dot, then a top label) passes `IsDomain` |
| Domains.DomainIsAssembled | src/index.ts:43 | every string passing `IsDomain` is matched by the regex |
| Domains.LookaheadRedundant | src/index.ts:43 | no string of the domain shape starts with "://", so the lookahead never rejects |
| Domains.DomainAccepted | src/index.ts:43 | "ads.example.com" has the domain shape |
| Domains.NoDotNoDomain | src/index.ts:43 | a string without a dot never has the domain shape |
| Domains.DomainRejected | src/index.ts:43 | "a", "not a domain" and "://bad" do not have the domain shape |
| Domains.AdguardKeeps | src/index.ts:49 | the first filter: not starting with "!" and containing "\|\|"; `AdguardItemsIff` states its part in the items |
| Domains.CaretFrom1 | src/index.ts:50 | the lazy capture `(.+?)\^` ends at the first '^' after at least one character |
| Domains.AdguardRewrite | src/index.ts:50 | the regex replacement; `AdguardRewriteRule` gives the rewrite of a matching line, and `AdguardRewriteNoPrefix`, `AdguardRewriteNoCaret` and `AdguardRewriteLineBreak` show that every other line is left unchanged |
| Domains.AdguardRewriteRule | src/index.ts:50 | "\|\|d^modifiers" and "@@\|\|d^modifiers" rewrite to the capture d, for every non-empty d with no '^' after its first character; these are all the lines the regex matches |
| Domains.AdguardRewriteLeadingCaret | src/index.ts:50 | a capture may begin with '^': "\|\|^x^" gives "^x" and "@@\|\|^^y" gives "^" |
| Domains.AdguardRewriteNoPrefix | src/index.ts:50 | a line that does not begin with "\|\|" or "@@\|\|" is left unchanged |
| Domains.AdguardRewriteNoCaret | src/index.ts:50 | a "\|\|" or "@@\|\|" line with no '^' after the capture's first character does not match and is left unchanged |
| Domains.AdguardRewriteLineBreak | src/index.ts:50 | a line holding a line terminator, such as the '\r' of a CRLF feed, does not match and is left unchanged |
| Domains.AdguardClean | src/index.ts:50 | the map step, rewrite then trim; `AdguardItemsIff` states its part in the items |
| Domains.AdguardItems | src/index.ts:45-54 | every AdGuard item has the domain shape; `AdguardItemsIff` gives exactly which items there are |
| Domains.AdguardItemsIff | src/index.ts:45-54 | an AdGuard item is exactly the cleaned form of a kept line that has the domain shape |
| Domains.BlacklistKeeps | src/index.ts:60 | the first filter: no "#" in the line; `BlacklistItemsIff` states its part in the items |
| Domains.BlacklistClean | src/index.ts:61 | the map step, first "0.0.0.0" removed then trim; `BlacklistHostsLine` shows a hosts line |
| Domains.BlacklistItems | src/index.ts:56-65 | every blacklist item has the domain shape; `BlacklistItemsIff` gives exactly which items there are |
| Domains.BlacklistItemsIff | src/index.ts:56-65 | a blacklist item is exactly the cleaned form of a kept line that has the domain shape |
| Domains.BlacklistHostsLine | src/index.ts:61 | a hosts line "0.0.0.0 domain" cleans to the domain |
| Domains.RawFeed | index.ts:29-37 | the legacy feed has one entry per newline plus one, and joining them with newlines gives the body back |
| Domains.MergedInput | src/index.ts:71-74 | `unique` receives the custom server, then the AdGuard items, then the blacklist items |
| Domains.CustomServerIsDomain | src/index.ts:9-11 | the custom server has the domain shape |
| Domains.AdServers | src/index.ts:67-78 | the merge of the custom server and both feeds, de-duplicated; `AdServersShape` pins it down |
| Domains.AdServersHead | src/index.ts:71-74 | the custom server is the first domain of the merged set |
| Domains.AdServersMembers | src/index.ts:67-74 | the merged set holds exactly the custom, AdGuard and blacklist entries |
| Domains.AdServersAreDomains | src/index.ts:67-74 | everything in the merged set has the domain shape |
| Domains.AdServersShape | src/index.ts:67-78 | the merged set has no duplicates, starts with the custom server, holds only domains, and holds exactly the three sources' entries |
| Provider.ListListsCall | src/index.ts:82-84 | listing succeeds exactly when the request is not rejected, returns every list, and only logs |
| Provider.DeleteListCall | src/index.ts:93-97 | on success exactly the lists with that id are gone; rules, ids and failures are unchanged; one entry is logged |
| Provider.CreateListCall | src/index.ts:110-118 | succeeds exactly when not rejected and an id is free; appends the list under the next id and uses that id up; on failure lists and ids are unchanged |
| Provider.ListRulesCall | src/index.ts:134-136 | listing rules succeeds exactly when not rejected, returns every rule, and only logs |
| Provider.DeleteRuleCall | src/index.ts:141-147 | on success exactly the rules with that id are gone; lists are unchanged; one entry is logged |
| Provider.CreateRuleCall | src/index.ts:164-171 | succeeds exactly when not rejected and an id is free; appends the rule under the next id; on failure rules and ids are unchanged |
| Provider.Gateway.constructor | src/index.ts:175 | a client bound to a given account state |
| Provider.Gateway.ListLists | src/index.ts:82-84 | the client's answer and new state are those of `ListListsCall` |
| Provider.Gateway.DeleteList | src/index.ts:93-97 | the client's outcome and new state are those of `DeleteListCall` |
| Provider.Gateway.CreateList | src/index.ts:110-118 | the client's outcome and new state are those of `CreateListCall` |
| Provider.Gateway.ListRules | src/index.ts:134-136 | the client's answer and new state are those of `ListRulesCall` |
| Provider.Gateway.DeleteRule | src/index.ts:141-147 | the client's outcome and new state are those of `DeleteRuleCall` |
| Provider.Gateway.CreateRule | src/index.ts:164-171 | the client's outcome and new state are those of `CreateRuleCall` |
| Ownership.MarkersDistinct | src/index.ts:6-7 | the current program's list and rule sentinels differ; the legacy program's coincide |
| Ownership.OwnedLists | src/index.ts:86 | the managed lists are lists of the account, each with a non-empty id and the sentinel; `OwnedListsIff` adds the converse |
| Ownership.OwnedListsIff | src/index.ts:86 | a list is managed exactly when it is in the account, has a non-empty id, and its description is the sentinel |
| Ownership.OwnedListsAppend | src/index.ts:86 | the managed lists keep the provider's order |
| Ownership.OwnedListsExample | src/index.ts:86 | of a sentinel list with an id, a list with another description and a list with an empty id, only the first is managed |
| Ownership.FindRule | src/index.ts:138 | a rule found is in the account and carries the sentinel; `FindRuleNone` and `FindRuleFirst` pin it down |
| Ownership.ManagedRules | src/index.ts:138 | exactly the rules carrying the rule sentinel, in order, of which a run keeps at most one |
| Ownership.FindRuleNone | src/index.ts:138 | no rule is found exactly when no rule carries the sentinel |
| Ownership.FindRuleFirst | src/index.ts:138 | the rule found carries the sentinel and no earlier rule does |
| Traffic.Terms | src/index.ts:169 | one term per managed list |
| Traffic.Term | src/index.ts:169 | the term `any(dns.domains[*] in $id)` for one list; `TrafficShape` and `TrafficMentions` use it |
| Traffic.TrafficExpression | src/index.ts:169 | the terms joined with " or "; `TrafficShape` and `TrafficMentions` pin it down |
| Traffic.TrafficShape | src/index.ts:169 | no list gives "", one list gives its term, more give the first term, " or ", and the rest's expression |
| Traffic.TrafficMentions | src/index.ts:169 | every managed list's term occurs in the expression |
| Traffic.TrafficRawIds | src/index.ts:169 | because ids are not escaped, one crafted id yields the same expression as two lists |
| Runner.RunSpec | src/index.ts:35-40 | each task in turn on the account the one before left, stopping at the first failure; `RunStopsAt` and `RunAppend` pin it down |
| Runner.RunAppend | src/index.ts:35-40 | running two task sequences in a row is running the second from where the first left, or not at all if it failed |
| Runner.RunStopsAt | src/index.ts:35-40 | when task k is the first to fail, the run's outcome is that task's: nothing after it runs |
| Runner.RunAppended | src/index.ts:35-40 | tasks that each only append to the log, ending on their own outcome, make a run that does the same |
| Runner.RunWithin | src/index.ts:35-40 | tasks in non-decreasing phase that each log only their own phase log their requests in phase order |
| Runner.RunPreserves | src/index.ts:35-40 | a property of the account that every task keeps holds after the run |
| Runner.RunSucceeds | src/index.ts:35-40 | when every task succeeds and keeps a property, a run from an account with the property succeeds |
| Runner.RunMapped | src/index.ts:101-107 | two task lists whose tasks act alike position by position run alike |
| Workflow.Take | src/index.ts:180 | `slice(0, n)`: the first min(n, length) domains |
| Workflow.ListName | src/index.ts:125 | "Ad servers " and the chunk's position from 1; `ListNamesDistinct` makes the names distinct |
| Workflow.DeleteCalls | src/index.ts:101-105 | one deletion per managed list, by its id, in order; `DeleteCallsEffect` states the run's effect |
| Workflow.CreateCalls | src/index.ts:122-126 | one creation per chunk, named by its position; `CreateCallsEffect` and `ListCreationEffect` state the run's effect |
| Workflow.FetchAdServerListsSpec | src/index.ts:81-91 | one listing request, then the managed lists; `Orchestrator.FetchAdServerLists` ends as it does |
| Workflow.FetchBlockAdsRuleSpec | src/index.ts:131-139 | one listing request, then the first sentinel rule; `Orchestrator.FetchBlockAdsRule` ends as it does |
| Workflow.DeleteExistingBlockAdsRuleSpec | src/index.ts:149-157 | the rule teardown; `RuleTeardownEffect` and `RuleTeardownOnlyFirst` pin it down |
| Workflow.DeleteExistingAdServerListsSpec | src/index.ts:99-108 | the list teardown; `ListTeardownEffect` pins it down |
| Workflow.CreateAdServerListsSpec | src/index.ts:120-129 | the list creation over the chunks; `ListCreationEffect` pins it down |
| Workflow.CreateBlockAdsRuleSpec | src/index.ts:159-172 | the rule creation after a listing; `RuleCreationEffect` pins it down |
| Workflow.Stages | src/index.ts:177-182 | the four stages in order, list creation over the first 100000 domains |
| Workflow.Reconcile | src/index.ts:177-182 | the run of the four stages; `ReconcileSteps` and `ReconcileSuccess` pin it down |
| Workflow.ReconcileCurrent | src/index.ts:174-182 | the current program: the run over the merged, validated feeds with two sentinels |
| Workflow.ReconcileLegacy | index.ts:132-140 | the legacy program: the run over the raw feed with one shared sentinel |
| Properties.CallsAppended | src/index.ts:99-108 | the inner deletion and creation runs only append to the log and end on the first failure |
| Properties.StageAppended | src/index.ts:149-172 | every stage only appends to the log and fails exactly when its last request failed |
| Properties.ReconcileAppended | src/index.ts:177-182 | the whole run only appends to the log; it fails exactly when its last request was rejected, so nothing runs after the first failure |
| Properties.StageWithin | src/index.ts:149-172 | each stage makes only reads and the changing requests of its own phase |
| Properties.ReconcileOrdered | src/index.ts:177-182 | rule deletion, list deletions, list creations and rule creation come in that order in the log |
| Properties.ReconcileSteps | src/index.ts:177-182 | whatever its outcome, a run is the four stages in order, each from the account the one before left, ending at the first that fails |
| Properties.CallsKeepList | src/index.ts:99-108 | a run of list requests keeps every list whose id none of its deletions names |
| Properties.ListTeardownKeepsList | src/index.ts:99-108 | the list teardown keeps a list sharing no id with a managed one, whatever its outcome |
| Properties.ListCreationKeepsList | src/index.ts:120-129 | the list creation only appends, so every list stays |
| Properties.ReconcileKeepsForeignList | src/index.ts:86 | a list without the sentinel, sharing no id with a managed one, survives every run whatever its outcome |
| Properties.RuleTeardownKeepsRule | src/index.ts:149-157 | the rule teardown keeps a rule sharing no id with a sentinel rule, whatever its outcome |
| Properties.ReconcileKeepsForeignRule | src/index.ts:138 | a rule without the sentinel, sharing no id with one that has it, survives every run whatever its outcome |
| Properties.TeardownLeavesNoManagedRule | src/index.ts:149-157 | with at most one sentinel rule, the rules a successful teardown leaves carry no sentinel |
| Properties.RuleTeardownManaged | src/index.ts:149-157 | the rule teardown keeps at most one sentinel rule, and on success leaves none |
| Properties.ListStageKeepsRules | src/index.ts:99-129 | the two list stages leave the rules as they are |
| Properties.RuleCreationAddsOne | src/index.ts:159-172 | with no sentinel rule before it, the rule creation leaves at most one |
| Properties.ReconcileKeepsOneManagedRule | src/index.ts:177-182 | a run from an account with at most one sentinel rule leaves at most one, whatever its outcome |
| Properties.RuleTeardownNoMatch | src/index.ts:149-154 | with no sentinel rule, the rule teardown leaves the rules as they are |
| Properties.RuleTeardownOnlyFirst | src/index.ts:149-157 | only the first sentinel rule's id is deleted; a later sentinel rule with another id stays |
| Properties.RuleTeardownEffect | src/index.ts:149-157 | the rule teardown changes only the rules, and on success leaves all but the first sentinel rule's id |
| Properties.DeleteCallsEffect | src/index.ts:99-108 | the deletion run removes exactly the lists with one of the given ids when it succeeds, and touches nothing else |
| Properties.ListTeardownEffect | src/index.ts:99-108 | after a successful list teardown no managed list is left, and exactly the lists sharing no id with a managed one remain |
| Properties.CreateCallsEffect | src/index.ts:120-129 | the creation run appends one list per call, in order, under successive fresh ids |
| Properties.ListCreationEffect | src/index.ts:120-129 | on success the lists are the old ones followed by one sentinel list per chunk, named "Ad servers k", holding that chunk |
| Properties.RuleCreationEffect | src/index.ts:159-172 | on success one "Block ads" rule is appended whose traffic names the managed lists at that moment |
| Properties.NewListsOwned | src/index.ts:110-118 | every list the run creates carries the sentinel and so is managed |
| Properties.ReconcileStages | src/index.ts:177-182 | a successful run passes through the four stages in order, each succeeding on the account the one before left, and ends with the last stage's outcome |
| Properties.StagesSucceeded | src/index.ts:177-182 | four stages that succeeded one after the other leave exactly the new lists managed and one new rule naming them |
| Properties.ReconcileSuccess | src/index.ts:177-182 | after a successful run the managed lists are exactly the new lists, and the rules are the teardown's leftovers plus one rule blocking exactly those lists |
| Properties.ListCap | src/index.ts:4-5 | at most 100 lists of at most 1000 domains; 100000 domains or more fill exactly 100 lists of 1000 |
| Properties.ListNamesDistinct | src/index.ts:125 | different chunks give differently named lists |
| Properties.NewListsHoldDomains | src/index.ts:180 | the new lists' items, in order, are exactly the first 100000 domains |
| Properties.CurrentListItemsAreDomains | src/index.ts:174-182 | every domain placed in a list by the current program has the domain shape and comes from the merged feeds |
| Properties.DeleteCallsSucceed | src/index.ts:99-108 | with no rejected request the deletion run succeeds |
| Properties.CreateCallsSucceed | src/index.ts:120-129 | with no rejected request and enough ids the creation run succeeds |
| Properties.StageSucceeds | src/index.ts:149-172 | with no rejected request and enough ids every stage succeeds and uses up exactly the ids it creates with |
| Properties.ReconcileSucceeds | src/index.ts:177-182 | with no rejected request and one id for each new list and the rule, the run succeeds |
| Orchestrator.FetchAdServerLists | src/index.ts:81-91 | answer and new state are the specification's: the managed lists after one listing request |
| Orchestrator.DeleteExistingAdServerLists | src/index.ts:99-108 | ends as the specification: fetch, then the deletion run over the managed lists' ids |
| Orchestrator.CreateAdServerList | src/index.ts:110-118 | ends as one list creation with the list sentinel and type DOMAIN |
| Orchestrator.CreateAdServerLists | src/index.ts:120-129 | ends as the specification: the creation run over the chunks |
| Orchestrator.FetchBlockAdsRule | src/index.ts:131-139 | answer and new state are the specification's: the first sentinel rule after one listing request |
| Orchestrator.DeleteExistingBlockAdsRule | src/index.ts:149-157 | ends as the specification: nothing more when no rule is found, otherwise one deletion |
| Orchestrator.CreateBlockAdsRule | src/index.ts:159-172 | ends as the specification: fetch, then one rule creation with the traffic of the managed lists |
| Orchestrator.Perform | src/index.ts:177-182 | performing one deferred task ends as its specification |
| Orchestrator.RunPromisesInSequence | src/index.ts:35-40 | the loop ends in the state and outcome of `RunSpec` on the tasks |
| Orchestrator.RunCurrent | src/index.ts:174-182 | the current program's run ends as `ReconcileCurrent` on the two feed bodies |
| Orchestrator.RunLegacy | index.ts:132-140 | the legacy program's run ends as `ReconcileLegacy` on the feed body |

## Left out

- **Network and environment.** Fetching the feeds is not modelled; the response
  bodies are parameters. Also left out: `dotenv`, `process.env` (the token and
  the account id passed with every request), the construction of the client from
  a token, and all `console.log` output.
- **Concurrency.** `Promise.all` over the two feeds runs them concurrently. The
  model takes both bodies at once and keeps the order `Promise.all` gives
  (AdGuard first).
- **Pause.** The one-second `sleep` between tasks has no effect on the outcome
  and is not modelled.
- **Process outcome.** The top-level call to `runPromisesInSequence` is not
  awaited, so a rejection ends the process as an unhandled rejection. The model
  stops with `ok == false` and does not model the exit status or the exception.
- **Provider.** The Cloudflare API is abstract here. Identifiers come from
  `supply`, and rejected requests are the ordinals in `failing`. A delete removes
  every resource with that id. Pagination, rate limits and error bodies are not
  modelled. The SDK's optional `id` is a string, and a missing one is the empty
  string, which the list filter treats as falsy.
- **Regular expressions.** The JavaScript regex engine is not modelled. Each of
  the three regexes is written out as a function:
  - `validDomainRegex` is `IsDomain`, proved equivalent to its own grammar;
  - the AdGuard rewrite is `AdguardRewrite`, where `.` is any character but
    `\n`, `\r`, U+2028 and U+2029;
  - `/0\.0\.0\.0/` is first-occurrence replacement of the literal.
- Text.Trim: only ASCII whitespace is removed. JavaScript's `trim` also removes
  Unicode spaces such as U+00A0 and U+FEFF.
- Chunking.Chunks: requires `size > 0`. With a size of 0 or less and a
  non-empty list, the source's loop never ends; both call sites pass 1000.
- Properties.ReconcileSuccess: assumes the provider never hands out an empty id.
  A list created with an empty id would not pass the managed-list filter.
- Properties.ReconcileKeepsForeignList: assumes the foreign list shares no id
  with a list carrying the sentinel. The provider's real ids are unique.
- Properties.ReconcileKeepsForeignRule: assumes the foreign rule shares no id
  with a rule carrying the sentinel. The provider's real ids are unique.

