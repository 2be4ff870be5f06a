# Sapio in Dafny

A model of the Sapio contract compiler and of the contracts and encodings around it, with proofs.

Sapio compiles a contract, at a place in a tree of contracts, into a Bitcoin output: a taproot script tree with
one leaf for each way to spend the output, and a map of the transactions that the script commits to through
their template hash (BIP-119). The outputs of those transactions are again compiled contracts. The compiled tree
is later bound to a coin, which links every transaction to its parent. This project models that pipeline and
proves what it is for:

* `Policies`, `Guards`, `ConditionalCompile`, `Compiler`, `CompiledContracts`: what the script leaves of a compiled
  contract let through is what the contract means, guard caching, conditional branches and deduplication by hash
  included. The compilation succeeds under a stated condition, and no path or name is used twice. Without a finish
  guard or a continuation, only transactions that are committed to can spend.
* `TapTrees`: the tree of the heap merge has all leaves and, under every tie-break, the least total depth and
  height of all binary trees with as many; listing its leaves depth first and adding them back rebuilds it.
* `EffectPaths`, `Contexts`, `Builders`, `BuiltTemplates`, `FundsFlow`, `CompiledFunds`: effect paths never
  collide, a builder conserves its funds after every step, and no unfolding of a compiled tree pays out more than
  went in, for trees of plain builder steps and for whatever the compiler returns.
* `CtvHash`, `PathText`, `ChildPaths`: the hashed text is laid out as BIP-119 says and determines the transaction,
  effect paths survive printing and parsing exactly when they are valid, and the child path of a hash can be
  decoded.
* `Binder`, `BindingFailures`, `TxIndexes`: the stack loop does what a recursive walk does and links every
  transaction to the coin of its object; its program keeps every object exactly when no two share a root path; a
  cached index answers as its primary does.
* `PaymentTrees`, `PaidLeaves`, `PaymentPools`, `PoolUpdates`, `Bets`, `RiskReversals`, `GreedyPayouts`: contract
  algorithms.

`Sequences`, `Arithmetic`, `Wrappers`, `Bytes`, `Addresses` and `Templates` hold what the others share. Code that
changes state in the program is a class or a method with loops here, proved against a function; code that computes
is a function. Run `dafny verify dfyconfig.toml` to check everything.

## Conventions

* A panic of the program is the error value `Panic(..)`; an endless loop is `None` or `Diverges`.
* Amounts are natural numbers. An overflow of a 64-bit `Amount` aborts the program, so the statements are about
  the runs that do not abort; where it changes an outcome the check is written out (`AddAmount`, `FeesAdded`,
  `ToBetArguments`). The ends of the risk-reversal grid are computed in wrapping 64-bit arithmetic as in the
  program, and `BottomEncloses` and `TopEncloses` say when nothing wraps.
* Hash functions, transaction ids, the script compiler, descriptors with their weight estimate, transaction
  weights, the emulator's signer, signature checks and the contracts that user code supplies are parameters.
  What is asked of them is a named predicate: `PreservesMeaning` for the script compiler, `NoCollisions` for
  SHA-256 and `IdsDetermine` for transaction ids, both only on the inputs at hand.
* Containers that the program keeps sorted are sequences in that order where the order matters.

## Where the code does not do what it says

Each of these is modelled as it is written; the lemma says exactly when the stated promise holds.

* `sapio/src/contract/compiler/mod.rs:338-345` turns a template down unless it pays less than its declared
  minimum feerate; `sapio/src/template/builder.rs:288-294` promises the opposite. See
  `Compiler.FeeratePromiseHoldsIff` and `Compiler.PayingTheMinimumFails`.
* `sapio/src/contract/compiler/mod.rs:117-127`: the counter in a fallback name never advances, so the search
  for a name ends if and only if the name or its one fallback is unused. See `Compiler.NamingEndsIffFree`.
* `sapio/src/contract/compiler/cache.rs:95-99`: the supply of guard contexts takes `Metadata` from the same
  context each time, so it yields one pair and a second guard of one function waits forever. Guards are supplied
  if and only if there is at most one (`Guards.SuppliedIffAtMostOne`); `Guards.CreateGuards` yields None exactly
  otherwise, and a compilation that reaches such a function, as
  `plugin-example/ordinal-inscription/src/plugin.rs:65` has one, is `Diverges` in `Compiler.Compile`. Finish
  guards have a supply of their own, at `sapio/src/contract/compiler/mod.rs:306-310`, which serves any number.
* `plugin-example/treepay/src/plugin.rs:91-112`: with a radix below two, a longer queue never shrinks. See
  `PaymentTrees.SmallRadixDiverges`; `PaymentTrees.Expand` yields None exactly then.
* `sapio/src/ordinals/mod.rs:275-282`: after recording change, the branch goes on to remove an index below zero;
  the model treats it as an abort. The call returns if and only if the greedy walk reaches zero; it can abort
  although an exact split exists (`GreedyPayouts.GreedyCanMissASplit`).
* `sapio/src/contract/abi/object/bind.rs:82-85`: mock outpoints count a 32-bit output number, so they are
  distinct if and only if the tree has at most 2^32 extra inputs (`Binder.MocksDistinctIff`).
* `sapio-contrib/src/contracts/derivatives/mod.rs:122-128`: a bet over a single outcome has nothing to pay on
  its lower side (`Bets.LoneOutcomeHasNoLowerSide`), so it is not paid below its strike (`Bets.LoneOutcomePays`).
  A schedule with a single rung is such a bet.
* `sapio-contrib/src/contracts/derivatives/risk_reversal.rs:130`: a strike of 2^63 or more turns negative as an
  `i64`. The outcomes of a schedule are in the order of their strikes if and only if these do not cross 2^63
  (`RiskReversals.StrikesKeepOrderIff`). `RiskReversals.BetSettlesRung` says which rung is paid in every case, and
  `RiskReversals.PaysFallenRungIff` that this is the rung the price falls on, at every price, if and only if all
  strikes are below 2^63.
* `plugin-example/payment_pool/src/payment_pool.rs:179-182` means to return `TerminateCompilation` when a request
  exceeds its payer's balance, but the amounts are unsigned and the subtraction before it, at lines 172-178, panics
  first. `PaymentPools.Refusal` is that panic, so `PaymentPools.MeetAll` and `PaymentPools.DoTx` yield it.

## Model

| member | source | states |
|---|---|---|
| Policies.FlattenPreservesMeaning | sapio/src/contract/compiler/mod.rs:421-432 | a policy is satisfied exactly when one of its flattened branches is |
| Policies.FlattenIsFlat | sapio/src/contract/compiler/mod.rs:421-432 | no flattened branch is itself a disjunction or a 1-of-n threshold |
| Policies.ThresholdOne | sapio/src/contract/compiler/mod.rs:427-429 | a 1-of-n threshold means that some branch is satisfied |
| Policies.ThresholdOfAll | examples/dcf_mining_pool/src/miner_payout.rs:95 | an n-of-n threshold means that all branches are satisfied |
| Guards.GuardCache.Get | sapio/src/contract/compiler/cache.rs:52-84 | the k-th use of a guard answers as evaluated there if fresh, as evaluated at its first use if cached, and the log of uses grows by one |
| Guards.AnswerStable | sapio/src/contract/compiler/cache.rs:52-84 | later uses never change an earlier answer |
| Guards.ReplyIsAnswer | sapio/src/contract/compiler/cache.rs:37-84 | an entry made at a guard's first use answers every later use |
| Guards.EvaluateGuards | sapio/src/contract/compiler/mod.rs:301-315 | guards are used in order, each in its own numbered context, and the values are the answers to these uses |
| Guards.CreateGuards | sapio/src/contract/compiler/cache.rs:87-115 | returns exactly if the supply yields a pair for every guard; then it is the conjunction of the answers to the guards, in order |
| Guards.ConjoinMeaning | sapio/src/contract/compiler/cache.rs:102-114 | dropping Trivial and unwrapping a single guard keeps the meaning: all guards hold |
| Guards.SupplyYieldsOnePair | sapio/src/contract/compiler/cache.rs:95-99 | however often it is drawn from, the context supply as written yields one pair |
| Guards.SuppliedIffAtMostOne | sapio/src/contract/compiler/cache.rs:93-101 | the supply serves every guard of a function iff there is at most one |
| Guards.UseIsDisciplined | sapio/src/contract/compiler/cache.rs:59-84 | a guard's code runs on the clone or on the original context, never on both, so using a guard never lets both copies derive |
| ConditionalCompile.MergeAllIsVerdict | sapio/src/contract/actions/conditional_compile.rs:40-87 | folding any list fails iff some element fails or Required and Never both occur, else yields the strongest; reasons in order, the conflict message first iff the conflict precedes the first Fail |
| ConditionalCompile.MergeOrderIrrelevant | sapio/src/contract/actions/conditional_compile.rs:40-87 | reordering changes neither whether the fold fails nor what it yields otherwise |
| ConditionalCompile.Assemble | sapio/src/contract/actions/conditional_compile.rs:107-116 | the fold over the conditions that are present, each evaluated in its own numbered context |
| Compiler.Renamer.GetName | sapio/src/contract/compiler/mod.rs:117-127 | a returned name was never handed out before; the name itself if free, else its one fallback |
| Compiler.NamingEndsIffFree | sapio/src/contract/compiler/mod.rs:117-127 | the naming loop ends iff the name or its fallback is free |
| Compiler.ComputeAllEffects | sapio/src/contract/compiler/mod.rs:80-105 | the default expansion followed by one for each recorded effect, in order, each at its own path; the first error ends it |
| Compiler.CtvClauseMeaning | sapio/src/contract/actions/then.rs:70-80 | the clause of a template holds exactly when its extra guards and its hash clause hold |
| Compiler.CollectClauses | sapio/src/contract/compiler/mod.rs:241-263 | succeeds iff nothing returned is an error and every kept template has a clause; keeps the first template of each hash, takes the maximum of all amounts, and collects the clause of the kept template for each proposed one |
| Compiler.ClausesMeaning | sapio/src/contract/compiler/mod.rs:241-263 | the collected clauses hold exactly when some proposed template, as kept for its hash, is satisfied |
| Compiler.CombineMeaning | sapio/src/contract/compiler/mod.rs:377-419 | in every case that succeeds, the leaves mean the guards and one of the clauses |
| Compiler.FlattenAndCompileMeaning | sapio/src/contract/compiler/mod.rs:367-375 | the leaves of a flattened policy mean the policy |
| Compiler.Job.MaxIsOverAll | sapio/src/contract/compiler/mod.rs:168-246 | the maximum covers the ensured amount and every proposed template, and is one of these |
| Compiler.GuardFunction | sapio/src/contract/compiler/mod.rs:226-229 | the guards of one function below its own context, which returns iff there is at most one; the derivation never fails |
| Compiler.ProposeTemplates | sapio/src/contract/compiler/mod.rs:230-238 | effect path and templates of one function at the context for its kind |
| Compiler.JudgeFunction | sapio/src/contract/compiler/mod.rs:205-222 | the verdict is the fold of the function's conditions below its own path |
| Compiler.CompileThen | sapio/src/contract/compiler/mod.rs:241-276 | fails iff the clauses cannot be collected or the leaves cannot be compiled; otherwise the progress covers one more function, a then-function |
| Compiler.CompileContinuation | sapio/src/contract/compiler/mod.rs:241-281 | the same for a continuation, which also gets an entry of its own |
| Compiler.CompileFunction | sapio/src/contract/compiler/mod.rs:201-282 | skips Skippable and Never, fails on Fail, runs forever on a second guard, and otherwise adds the function's templates, leaves and entry |
| Compiler.CompileNext | sapio/src/contract/compiler/mod.rs:190-200 | names one function with an unused name and derives its context, which never fails; answers Diverges where the name or the guards make it run forever, and fails only where the function is not accepted |
| Compiler.CompileFunctions | sapio/src/contract/compiler/mod.rs:176-283 | succeeds iff every function is accepted, at most one guard each included; leaves, maps, maximum and continuations are those of all functions in order; runs forever if it reaches a function that does |
| Compiler.FirstRefused | sapio/src/contract/compiler/mod.rs:181-283 | whether a compilation runs forever is decided by the first function that is not accepted |
| Compiler.ContinuationAdded | sapio/src/contract/compiler/mod.rs:277-288 | a continuation's entry has a key that no earlier entry has |
| Compiler.CompileFinish | sapio/src/contract/compiler/mod.rs:298-319 | the leaves of the finish guards as the cache answers them, or the first policy's error |
| Compiler.CompileBranches | sapio/src/contract/compiler/mod.rs:189-325 | finish leaves come first, then those of the functions; succeeds iff the two contexts are free and all is accepted |
| Compiler.CheckFeerates | sapio/src/contract/compiler/mod.rs:338-347 | passes iff every committed template is covered and not turned down; an error names one of the two causes |
| Compiler.Conclude | sapio/src/contract/compiler/mod.rs:327-363 | the tree holds exactly the leaves and is as shallow as can be; success depends only on the descriptor, the feerate check and the metadata |
| Compiler.CompileEnsured | sapio/src/contract/compiler/mod.rs:176-363 | from the ensured amount on: something correct is put together iff the two contexts are free and all is accepted, and it is returned iff the last checks pass |
| Compiler.Compile | sapio/src/contract/compiler/mod.rs:153-364 | succeeds exactly under a stated condition on the contract and its place, and what it returns is Correct: leaves, tree, both template maps, continuations, root path and maximum amount; runs forever if it reaches a function that cannot be named or guarded |
| Compiler.CompilationPreservesMeaning | sapio/src/contract/compiler/mod.rs:181-325 | the leaves of a compiled contract are satisfied exactly by what satisfies a finish guard, all guards of a continuation, or all guards of a then-function with a proposed template's guards and hash |
| Compiler.CommittedTreeMeans | sapio/src/contract/compiler/mod.rs:298-330 | the same of the committed tree: some script of it is satisfied iff the contract lets the spend through |
| Compiler.FunctionMeaning | sapio/src/contract/compiler/mod.rs:225-281 | the leaves of one function mean what that function lets through |
| Compiler.Job.NamesAreFresh | sapio/src/contract/compiler/mod.rs:190-199 | functions that are named get different names and different paths |
| Compiler.Job.FirstOverWholeContract | sapio/src/contract/compiler/mod.rs:247-256 | a template is judged by the first of its hash over the whole contract, not only over the functions before it |
| Compiler.CommittedHashes | sapio/src/contract/compiler/mod.rs:247-253 | the keys of the committed map are exactly the hashes that then-functions propose, each with a template of that hash below the maximum |
| Compiler.OneEntryPerContinuation | sapio/src/contract/compiler/mod.rs:284-289 | the map of continuations has exactly as many entries as there are compiled continuations |
| Wrappers.SomesInOrder | sapio/src/contract/compiler/mod.rs:179-189 | functions that are absent are dropped, and the others keep their order |
| CompiledContracts.FunctionsOfContract | sapio/src/contract/compiler/mod.rs:176-189 | a contract's functions are its then-functions in order, then its continuations as they are |
| CompiledContracts.ThenFunctionCommits | sapio/src/contract/actions/then.rs:50-67 | each then-function keeps its name, guards, conditions and code, commits to its templates, and has no web interface |
| CompiledContracts.PlacesOfFunction | sapio/src/contract/compiler/mod.rs:190-238 | the path of a function and of its effects, fragment by fragment; its name is its own or the one fallback; the funds are those at the place |
| CompiledContracts.KeepsNameIff | sapio/src/contract/compiler/mod.rs:190-200 | a function keeps its name iff no function before it was given this name |
| CompiledContracts.VerdictsInOrder | sapio/src/contract/actions/conditional_compile.rs:107-116 | the k-th condition present is asked at the k-th branch |
| CompiledContracts.FunctionVerdict | sapio/src/contract/compiler/mod.rs:201-222 | from what its conditions say: when a function fails the compilation, is left out, or may go without templates |
| CompiledContracts.EffectsInOrder | sapio/src/contract/compiler/mod.rs:80-105 | what a function returns by default and then for each effect recorded at its place, put together in order; the first failure is the answer |
| CompiledContracts.ProposedByContract | sapio/src/contract/compiler/mod.rs:230-263 | a template is proposed by a function of the contract iff one of the things it is asked, at its place below the contract and with the given effects, returns it |
| CompiledContracts.ProposedInOrder | sapio/src/contract/compiler/mod.rs:241-263 | templates of earlier functions come before those of later ones |
| CompiledContracts.GuardOfFunction | sapio/src/contract/compiler/cache.rs:37-84 | the guard of a function: evaluated at its own place if fresh, and where the first function used it if cached |
| CompiledContracts.NoGuardOfFunction | sapio/src/contract/compiler/cache.rs:87-115 | a function that lists no guards has none |
| CompiledContracts.FinishGuardAfterFunction | sapio/src/contract/compiler/mod.rs:298-315 | a finish guard that a function used before: evaluated at its own numbered place if fresh, and at that function's if cached |
| CompiledContracts.FinishGuardAlone | sapio/src/contract/compiler/mod.rs:298-315 | a finish guard that no function uses: at its own place if fresh, at its first place among the finish guards if cached |
| CompiledContracts.CombineInOrder | sapio/src/contract/compiler/mod.rs:377-419 | without templates a then-function compiles iff it is nullable, and adds nothing; with templates it adds one leaf each, iff its guards are not unsatisfiable and all compile; else which error |
| CompiledContracts.WithoutTemplates | sapio/src/contract/compiler/mod.rs:383-400 | a then-function that proposes nothing is accepted iff its conditions make it nullable |
| CompiledContracts.KeptTemplates | sapio/src/contract/compiler/mod.rs:241-263 | templates only suggested carry no guards; there is a clause for each one committed to |
| CompiledContracts.AcceptedIff | sapio/src/contract/compiler/mod.rs:223-282 | exactly when a function that is not left out is accepted, from what it is asked and answers |
| CompiledContracts.CompilationSucceedsIff | sapio/src/contract/compiler/mod.rs:153-364 | exactly when a compilation succeeds, from the contract's own parts |
| CompiledContracts.CommittedIff | sapio/src/contract/compiler/mod.rs:241-263 | the hashes committed to are those of the templates that the contract's then-functions propose |
| CompiledContracts.SpendsAreCommitted | sapio/src/contract/compiler/mod.rs:176-325 | whoever spends without a finish guard and without all guards of a continuation has met all guards of some then-function, and the guards and the hash clause of a template committed to |
| Compiler.FeeratePromiseHoldsIff | sapio/src/contract/compiler/mod.rs:338-345 | among compilations that pass, all templates pay their minimum iff none declares one |
| Compiler.PayingTheMinimumFails | sapio/src/contract/compiler/mod.rs:338-345 | a template that pays exactly its minimum is turned down, one that underpays is not |
| TapTrees.PopLightest | sapio/src/contract/compiler/util.rs:43-50 | pops an entry of least weight, any of them |
| TapTrees.BranchesToTree | sapio/src/contract/compiler/util.rs:38-54 | under any tie-break the tree has exactly the given leaves, each at depth floor or ceiling of log2 n, within the limit of BIP-341, with the least total depth and height of all trees with as many leaves; no tree iff no leaves |
| TapTrees.BalancedIsOptimal | sapio/src/contract/compiler/util.rs:38-54 | such a tree has the least total depth and the least height of all binary trees with as many leaves |
| TapTrees.CommittedTreeIsShallow | sapio/src/contract/compiler/util.rs:38-54 | it stays within the depth limit of BIP-341 |
| TapTrees.RelistScripts | sapio/src/contract/abi/object/bind.rs:107-113 | feeding a listing to the taproot builder, leaf by leaf |
| TapTrees.ReplayListing | sapio/src/contract/abi/object/bind.rs:107-113 | feeding a subtree leaf by leaf equals adding it as one node |
| TapTrees.ListingDeterminesTree | sapio/src/contract/abi/object/bind.rs:107-116 | rebuilding yields a tree exactly from that tree's own depth-first listing |
| TapTrees.CommitAndRelist | sapio/src/contract/compiler/mod.rs:329-330 | whatever tree is committed to, re-listing its scripts rebuilds it |
| EffectPaths.ReversePathIterator.Next | sapio-base/src/effects/reverse_path.rs:38-49 | yields the fragments one by one, last first |
| EffectPaths.FromVec | sapio-base/src/effects/reverse_path.rs:53-65 | the path whose fragments are the list, an error iff the list is empty |
| EffectPaths.ToVec | sapio-base/src/effects/reverse_path.rs:66-72 | the fragments of a path, root first |
| EffectPaths.FragmentsInjective | sapio-base/src/effects/reverse_path.rs:104-121 | paths with equal fragments are equal |
| EffectPaths.RoundTrip | sapio-base/src/effects/reverse_path.rs:53-72 | from path to list and back is the identity |
| Contexts.Context.Derive | sapio/src/contract/context.rs:112-128 | each fragment can be derived once; the child has the same funds, one more fragment and nothing derived |
| Contexts.Context.WithFunds | sapio/src/contract/context.rs:163-182 | a copy with the given funds, an error iff they exceed what is available |
| Contexts.Context.Spend | sapio/src/contract/context.rs:184-198 | lowers the funds, an error iff they do not suffice |
| Contexts.Context.Add | sapio/src/contract/context.rs:201-204 | raises the funds, an abort on overflow |
| Contexts.Context.InternalClone | sapio/src/contract/context.rs:131-141 | a copy with the same path and the same derived fragments |
| Contexts.PathsNeverCollide | sapio/src/contract/context.rs:112-204 | every run of context operations, clones included, keeps all paths ever made pairwise different as long as no two copies both derive |
| Contexts.FreshRunsKeepPathsApart | sapio/src/contract/context.rs:112-204 | the same for every run from one unused context |
| Contexts.CloneFreeRunsAreDisciplined | sapio/src/contract/context.rs:112-204 | a run without clones needs no further condition |
| Contexts.ClonesCollideIff | sapio/src/contract/context.rs:131-141 | when both copies derive, their children's paths differ iff the fragments do |
| Builders.Builder.constructor | sapio/src/template/builder.rs:53-67 | a new builder has one input, no outputs, version 2 and no fees |
| Builders.Builder.AddOutput | sapio/src/template/builder.rs:76-93 | compiles the contract in a numbered sub-context that holds exactly the amount, spends it, and appends the output |
| Builders.Builder.AddAmount | sapio/src/template/builder.rs:97-100 | adds to the funds only |
| Builders.Builder.SpendAmount | sapio/src/template/builder.rs:227-230 | spends from the funds only |
| Builders.Builder.AddFees | sapio/src/template/builder.rs:232-249 | moves the amount from the funds to the fees and closes the outputs |
| Builders.Builder.AddSequence | sapio/src/template/builder.rs:104-108 | adds an input without a relative lock time and changes nothing else |
| Builders.Builder.AddGuard | sapio/src/template/builder.rs:219-222 | appends the guard and changes nothing else |
| Builders.Builder.SetMinFeerate | sapio/src/template/builder.rs:295-299 | keeps the least feerate asked for |
| Builders.Builder.GetTx | sapio/src/template/builder.rs:253-286 | one input per sequence with that sequence or the default one, at the default outpoint; one output per contract with its amount and script |
| Builders.Builder.ToTemplate | sapio/src/template/builder.rs:348-363 | the template with the transaction's hash, outputs plus fees as its maximum |
| Builders.ReservedExactly | sapio/src/template/builder.rs:82-86 | an output can be reserved iff funds suffice and its branch is unused; the sub-context gets exactly the amount |
| Builders.BuilderConserves | sapio/src/template/builder.rs:76-249 | over any run, remaining funds, outputs, fees and plain spends come to the initial funds and what was added |
| Builders.TemplateWithinFunds | sapio/src/template/builder.rs:348-363 | the maximum is outputs plus fees and never exceeds the funds given |
| BuiltTemplates.StepSucceedsIff | sapio/src/template/builder.rs:76-240 | exactly when an operation of a builder succeeds |
| BuiltTemplates.TemplateOfOperations | sapio/src/template/builder.rs:253-370 | a finished template from the operations that built it: guards in order, outputs in order, each compiled for its amount at a branch of its own, inputs, fees, least feerate, and hash |
| Builders.EqualHashesEqualTransactions | sapio/src/contract/compiler/mod.rs:247-253 | templates that builders made have equal hashes iff they carry equal transactions |
| FundsFlow.NoMoneyCreated | sapio/src/template/builder.rs:76-100 | for contracts given as lists of builder steps: along any unfolding of the compiled tree, amounts at the ends and fees on the way are at most the root funds and what was added |
| FundsFlow.StepsConserve | sapio/src/template/builder.rs:225-249 | the same for the steps of one builder, with earlier outputs unchanged |
| CompiledFunds.CompiledWithinFunds | sapio/src/contract/compiler/mod.rs:181-263 | if the functions of a contract make their templates with builders from the funds they are called with, every template that a compilation commits to or suggests asks for at most the funds at the place and what was added |
| CompiledFunds.ContractFunded | sapio/src/contract/compiler/mod.rs:181-263 | and if all that these builders pay is funded, so is what the contract compiles to |
| CompiledFunds.CompiledContractsConserve | sapio/src/contract/compiler/mod.rs:181-365 | for what the compiler returns, with contracts nested to any depth: along any unfolding, amounts at the ends and fees on the way are at most the root funds and what was added |
| CompiledFunds.FundedConserves | sapio/src/template/builder.rs:225-249 | no unfolding of a funded object lets out more than went in |
| Builders.TotalValueOfOutputs | sapio-base/src/util.rs:58-60 | a transaction's total is the total of the template's outputs |
| CtvHash.GetCtvHash | sapio-base/src/util.rs:22-56 | the hash of the preimage of BIP-119, "Detailed Specification", fed field by field |
| CtvHash.PreimageLayout | sapio-base/src/util.rs:22-56 | the hashed text byte by byte: 84 bytes, version, lock time, number of inputs, hash of sequences, number of outputs, hash of outputs, index, as in the section "Detailed Specification" of BIP-119 |
| CtvHash.SequenceLayout | sapio-base/src/util.rs:29-38 | four bytes for each sequence number, in order, lowest byte first |
| CtvHash.OutputLayout | sapio-base/src/util.rs:44-53 | eight bytes of value, the length of the script, the script |
| CtvHash.OutputsLayout | sapio-base/src/util.rs:44-53 | outputs one after the other, in order |
| Bytes.LittleEndianAt | sapio-base/src/util.rs:24-28 | the i-th byte of an encoded number is its i-th lowest |
| Bytes.VarIntLayout | sapio-base/src/util.rs:46-48 | a length is one byte below 253, else a mark and two, four or eight bytes |
| CtvHash.OutputBytesInjective | sapio-base/src/util.rs:44-53 | concatenated outputs decode uniquely, however many there are |
| CtvHash.TemplateHashInjective | sapio-base/src/util.rs:22-56 | equal hashes iff equal version, lock time, sequence numbers, outputs and input index |
| PathText.PrintPath | sapio-base/src/effects/path_fragment.rs:131-137 | the text of a path, by reversing and joining |
| PathText.ParsePath | sapio-base/src/effects/path_fragment.rs:139-148 | the path of a text, or the first error |
| PathText.ParseDecimal | sapio-base/src/effects/path_fragment.rs:71-122 | reading back a printed number gives the number iff it fits 64 bits |
| PathText.FragmentRoundTrip | sapio-base/src/effects/path_fragment.rs:57-128 | a fragment survives printing and parsing iff it is valid |
| PathText.ParsedIsValid | sapio-base/src/effects/path_fragment.rs:57-128 | what can be read is valid, and the text read is the one printed, except for numbers written in another form |
| PathText.SplitJoin | sapio-base/src/effects/path_fragment.rs:135-143 | splitting undoes joining on pieces without slashes |
| PathText.PathRoundTrip | sapio-base/src/effects/path_fragment.rs:131-148 | a path survives printing and parsing iff its names and numbers are valid |
| PathText.TextIsInjective | sapio-base/src/effects/path_fragment.rs:131-137 | different valid paths print differently |
| ChildPaths.ChildPathIsFaithful | ctv_emulators/src/lib.rs:54-73 | nine unhardened steps, the ninth below 2^8, from which all 256 bits are decoded |
| ChildPaths.ChildPathsDiffer | ctv_emulators/src/lib.rs:54-73 | different hashes take different paths |
| TxIndexes.TxIndexLogger.LookupOutput | sapio-base/src/txindex.rs:38-44 | the output an outpoint names, or which of the two errors |
| TxIndexes.TxIndexLogger.AddTx | sapio-base/src/txindex.rs:76-80 | stores the transaction under its id and nothing else |
| TxIndexes.CachedTxIndex.LookupTx | sapio-base/src/txindex.rs:96-104 | one step of the cached lookup, failures of either index included |
| TxIndexes.CachedTxIndex.AddTx | sapio-base/src/txindex.rs:105-113 | one step of the cached addition, failures of either index included |
| TxIndexes.CacheStaysInAgreement | sapio-base/src/txindex.rs:91-114 | after any run, failures included, every cached entry agrees with the primary |
| TxIndexes.LookupIsTransparent | sapio-base/src/txindex.rs:96-104 | after any run, a successful lookup returns what the primary holds |
| TxIndexes.AddReachesPrimary | sapio-base/src/txindex.rs:105-113 | a successful addition leaves the transaction with the primary |
| TxIndexes.LookupIsRemembered | sapio-base/src/txindex.rs:96-104 | what was looked up once is found again even if the primary fails by then |
| Binder.BindTransaction | sapio/src/contract/abi/object/bind.rs:80-136 | relinks a copy of the template's transaction in place: input 0 to the coin, the others to mapped outpoints or the next mocks; records it, unless re-listing scripts, signing or the index fails |
| Binder.BindObject | sapio/src/contract/abi/object/bind.rs:67-159 | binds all templates of an object, committed ones first, and lists the objects that they pay |
| Binder.BindPsbt | sapio/src/contract/abi/object/bind.rs:34-164 | the stack loop ends and equals the recursive walk: result, visits in order, index and error |
| Binder.WalkVisitsEachObject | sapio/src/contract/abi/object/bind.rs:44-60 | every object of the tree is visited exactly once, in a fixed order |
| Binder.ProgramKeysAreRootPaths | sapio/src/contract/abi/object/bind.rs:61-66 | the program's keys are exactly the root paths of the tree |
| Binder.ProgramKeepsLastOfPath | sapio/src/contract/abi/object/bind.rs:61-66 | of several objects with one root path, the program keeps the one visited last, with its transactions |
| Binder.ProgramKeepsAllIff | sapio/src/contract/abi/object/bind.rs:61-66 | the program has as many entries as the tree has objects iff all root paths differ |
| Binder.AddressesShareAnEntry | sapio/src/contract/abi/object/mod.rs:152-173 | a tree with two plain addresses loses an entry |
| Binder.WalkLinks | sapio/src/contract/abi/object/bind.rs:80-141 | each transaction spends its object's coin at input 0, nothing refused it, and each of its outputs is the coin of the object it pays |
| BindingFailures.WalkFails | sapio/src/contract/abi/object/bind.rs:44-160 | a binding succeeds iff no template that is reached has a fault (no input, too few outpoints, or a refusal to re-list, sign or file it), and else fails with the first fault in visit order |
| BindingFailures.FaultsInOrder | sapio/src/contract/abi/object/bind.rs:44-160 | one possible fault for each template of each object, in visit order |
| BindingFailures.BindingFailsAt | sapio/src/contract/abi/object/bind.rs:75-140 | a binding that fails has the fault of some template that is reached, and none before it has any |
| BindingFailures.SoundTemplatesBind | sapio/src/contract/abi/object/bind.rs:75-140 | where every template has inputs and outpoints enough and nothing refuses it, the binding succeeds |
| Binder.WalkMocks | sapio/src/contract/abi/object/bind.rs:82-85 | a run hands out one mock outpoint per extra input, consecutively |
| Binder.MockOutsAt | sapio/src/contract/abi/object/bind.rs:45-46 | the i-th mock outpoint has the zero id and counts on, as a 32-bit number |
| Binder.MocksDistinctIff | sapio/src/contract/abi/object/bind.rs:45-85 | the mock outpoints of a run are distinct iff there are at most 2^32 of them |
| Binder.WalkKnowsCoins | sapio/src/contract/abi/object/bind.rs:96-136 | below the root every transaction records the output that it spends, and all are filed |
| Binder.ChildSpendsParentOutput | sapio/src/contract/abi/object/bind.rs:96-141 | the output recorded for a child is the very output of its parent's transaction |
| PaymentTrees.Expand | plugin-example/treepay/src/plugin.rs:78-113 | ends iff the radix is two or more or the list is short; then the tree has every payment at one leaf, at most radix children per node, the stated number of transactions and the height bound |
| PaymentTrees.TotalToPay | plugin-example/treepay/src/plugin.rs:64-70 | fees plus all amounts |
| PaymentTrees.PassKeepsQueue | examples/dcf_mining_pool/src/miner_payout.rs:146-163 | one pass keeps the payments, the soundness of every bundle and the count of transactions |
| PaymentTrees.QueuedHeights | examples/dcf_mining_pool/src/miner_payout.rs:146-163 | after any number of passes the queue holds all payments, and its heights never decrease and differ by at most one |
| PaymentTrees.SmallRadixDiverges | plugin-example/treepay/src/plugin.rs:91-112 | with a radix below two, a longer queue never returns |
| PaymentTrees.RootCost | plugin-example/treepay/src/plugin.rs:96-103 | the root owes all payments and one fee per transaction |
| PaymentTrees.StepsSpendExactly | plugin-example/treepay/src/plugin.rs:53-62 | the steps of a bundle succeed iff it has what it owes, and leave the rest untouched |
| PaymentTrees.BundleSpendsAll | plugin-example/treepay/src/plugin.rs:46-71 | a bundle with what it owes compiles, and nothing is left over at an inner node |
| PaidLeaves.BundlePutsOut | plugin-example/treepay/src/plugin.rs:46-62 | a compiled bundle pays each of its payments in order to its own payee, and every transaction pays the fee |
| PaidLeaves.TreePaysEveryone | plugin-example/treepay/src/plugin.rs:76-117 | the transactions of a compiled tree pay exactly the payments, each amount to its own payee, and one fee each |
| PaymentTrees.GetKeys | examples/dcf_mining_pool/src/miner_payout.rs:78-84 | the keys of a bundle are those of its leaves, in order |
| PaymentTrees.CooperateMeaning | examples/dcf_mining_pool/src/miner_payout.rs:92-96 | a bundle closes cooperatively iff each of its payees signs |
| PaymentTrees.RootCooperates | examples/dcf_mining_pool/src/miner_payout.rs:120-128 | the root asks for the same signatures as the contract |
| PaymentPools.TotalOf | plugin-example/payment_pool/src/payment_pool.rs:90-96 | the sum of all balances |
| PaymentPools.Ejection | plugin-example/payment_pool/src/payment_pool.rs:109-127 | splitting off at the middle key pays each half its total; an abort iff there are fewer than two members |
| PaymentPools.SplitOffAt | plugin-example/payment_pool/src/payment_pool.rs:113-121 | splitting the ordered map at a key splits it by position |
| PaymentPools.EjectionPartitions | plugin-example/payment_pool/src/payment_pool.rs:99-121 | ejection is compiled iff the middle key exists, and yields two disjoint non-empty pools with the members and total of the first |
| PaymentPools.EjectionConserves | plugin-example/payment_pool/src/payment_pool.rs:122-126 | the two outputs are the halves' totals and come to the pool's |
| PaymentPools.EjectionsEnd | plugin-example/payment_pool/src/payment_pool.rs:107-127 | however halves are chosen, there are at most ceiling of log2 n ejections |
| PaymentPools.MembersLeaveAlone | plugin-example/payment_pool/src/payment_pool.rs:107-127 | every member can get out alone with its own balance |
| PaymentPools.AllSignedMeaning | plugin-example/payment_pool/src/payment_pool.rs:131-136 | an update needs the signature of every member |
| PaymentPools.DigestToSign | plugin-example/payment_pool/src/payment_pool.rs:201-208 | the digest of sequence number, fee and payments, fed piece by piece |
| PaymentPools.SignaturesBindTheState | plugin-example/payment_pool/src/payment_pool.rs:201-208 | equal signed bytes mean equal sequence number, fee and bytes of payments |
| Addresses.ScriptPrefix | plugin-example/payment_pool/src/payment_pool.rs:206 | the script of an address tells its own length: none is a proper prefix of another, and equal scripts mean equal addresses |
| PaymentPools.PaymentBytesDecode | plugin-example/payment_pool/src/payment_pool.rs:204-207 | the bytes of a list of payments decode uniquely, whatever kinds of address it pays |
| PaymentPools.SignaturesBindPayments | plugin-example/payment_pool/src/payment_pool.rs:201-208 | signed bytes are equal iff sequence number, fee and all payments, their addresses and amounts in order, are |
| PaymentPools.MeetAll | plugin-example/payment_pool/src/payment_pool.rs:151-216 | yields the error of the first refused request, or the balances, payments and sum of the update |
| PaymentPools.NewMembersNext | plugin-example/payment_pool/src/payment_pool.rs:183-188 | inserting or removing a payer equals meeting one more request in one pass over the members |
| PaymentPools.NewBalances | plugin-example/payment_pool/src/payment_pool.rs:167-188 | each member keeps its balance less its cost, and is gone iff nothing is left |
| PaymentPools.DoTx | plugin-example/payment_pool/src/payment_pool.rs:144-247 | nothing for an empty update, the first refusal's error, or the one transaction that pays the new pool and the payments |
| PaymentPools.RefusedIffOneIs | plugin-example/payment_pool/src/payment_pool.rs:165-216 | an update goes through iff no single request is refused |
| PoolUpdates.RefusedUnlessAllowed | plugin-example/payment_pool/src/payment_pool.rs:165-214 | a request passes iff its payer is a member, can afford it, and signed it if signatures are needed; which error each violation yields |
| PoolUpdates.RefusedUpdate | plugin-example/payment_pool/src/payment_pool.rs:165-214 | an update with such a violation fails with the error of the first one |
| PoolUpdates.OnlyAllowedUpdates | plugin-example/payment_pool/src/payment_pool.rs:200-214 | whatever an update proposes, every payer signed the pool's state, fee and payments if signatures are needed |
| PoolUpdates.AllowedUpdate | plugin-example/payment_pool/src/payment_pool.rs:144-247 | an update without violations is what its proposal comes to |
| PoolUpdates.UpdatePays | plugin-example/payment_pool/src/payment_pool.rs:217-247 | the transaction pays the next pool, which keeps the rule on signatures, then each payment to its own address, or all through one tree if there are over four |
| PoolUpdates.EjectionsKeepRules | plugin-example/payment_pool/src/payment_pool.rs:114-121 | pools split off need signatures as before and count one state per split |
| PoolUpdates.EjectionPays | plugin-example/payment_pool/src/payment_pool.rs:109-127 | an ejection pays the pool of the lower members and then that of the upper ones |
| PoolUpdates.SignedLayout | plugin-example/payment_pool/src/payment_pool.rs:201-204 | the signed bytes start with eight of the sequence number and eight of the fee |
| PoolUpdates.PaymentsLayout | plugin-example/payment_pool/src/payment_pool.rs:204-207 | the bytes of the payments come one after the other, in order |
| PoolUpdates.OnePaymentLayout | plugin-example/payment_pool/src/payment_pool.rs:205-206 | a payment is eight bytes of amount and then the script |
| PaymentPools.PoolUpdateConserves | plugin-example/payment_pool/src/payment_pool.rs:144-247 | new total, payments and fees come to the old total; outputs are the new total and the payments, in both the short and the long case; every payer was a member |
| Bets.FromArguments | sapio-contrib/src/contracts/derivatives/mod.rs:40-57 | the outcomes sorted and nothing lost, an oracle clause for exactly their strikes; well formed if strikes are unique |
| Bets.SortedIsIncreasing | sapio-contrib/src/contracts/derivatives/mod.rs:41-43 | sorting outcomes with different strikes makes them strictly increasing |
| Bets.RecurseOver | sapio-contrib/src/contracts/derivatives/mod.rs:78-101 | nothing, the lone outcome's template, or a smaller bet paid with the whole amount; an error iff funds or the compilation fail |
| Bets.HalvesAreWellFormed | sapio-contrib/src/contracts/derivatives/mod.rs:70-128 | both halves are non-empty and well formed, and every oracle lookup succeeds |
| Bets.SideKeepsTerms | sapio-contrib/src/contracts/derivatives/mod.rs:78-101 | a smaller bet is over half of the outcomes, for the whole amount, with the same oracle and cooperative clause |
| Bets.SidesKeepTerms | sapio-contrib/src/contracts/derivatives/mod.rs:78-101 | so is every bet reached, over a slice of the first one's outcomes, whatever sides are taken |
| Bets.InnerTransactionsPayOn | sapio-contrib/src/contracts/derivatives/mod.rs:84-99 | every inner transaction of the whole tree has one output, of the first bet's amount |
| Bets.WinnerIsGreatest | sapio-contrib/src/contracts/derivatives/mod.rs:103-128 | the winner is the greatest strike not above the price, or the lowest strike |
| Bets.BetPaysWinner | sapio-contrib/src/contracts/derivatives/mod.rs:70-128 | once a price is attested, satisfied sides lead to the winner's template and to no other; a lone outcome is paid from its strike on |
| Bets.LoneOutcomePays | sapio-contrib/src/contracts/derivatives/mod.rs:103-128 | a lone outcome is paid iff the price reaches its strike |
| Bets.RoundsBound | sapio-contrib/src/contracts/derivatives/mod.rs:78-101 | a bet over n outcomes is settled within ceiling of log2 n rounds |
| Bets.LoneOutcomeHasNoLowerSide | sapio-contrib/src/contracts/derivatives/mod.rs:122-128 | the lower side is empty iff there is a single outcome |
| RiskReversals.ScheduleIsSound | sapio-contrib/src/contracts/derivatives/risk_reversal.rs:119-138 | strikes step exactly from bottom to top, payouts sum to the locked amount without underflow, never grow with the strike, and are the exact quotients |
| RiskReversals.EndsEncloseCurrent | sapio-contrib/src/contracts/derivatives/risk_reversal.rs:105-115 | with a lower fraction of at most one and no overflow, the ends enclose the price |
| RiskReversals.BottomEncloses | sapio-contrib/src/contracts/derivatives/risk_reversal.rs:105-106 | the lower end is not above the price |
| RiskReversals.TopEncloses | sapio-contrib/src/contracts/derivatives/risk_reversal.rs:107-110 | the upper end is not below the price |
| RiskReversals.BottomIsFloor | sapio-contrib/src/contracts/derivatives/risk_reversal.rs:105-106 | where nothing wraps, the lower end is the price less its fraction, rounded down to a whole unit |
| RiskReversals.TopIsCeiling | sapio-contrib/src/contracts/derivatives/risk_reversal.rs:107-110 | where nothing wraps, the upper end is the price and its fraction, rounded up to a whole unit |
| RiskReversals.BuildRung | sapio-contrib/src/contracts/derivatives/risk_reversal.rs:129-137 | pays the user and then the operator at one strike; fails iff the strike was used, funds are short or a payee does not compile |
| RiskReversals.BuildSchedule | sapio-contrib/src/contracts/derivatives/risk_reversal.rs:121-139 | one settlement per rung, in order; fails iff some rung cannot be built |
| RiskReversals.ToBetArguments | sapio-contrib/src/contracts/derivatives/risk_reversal.rs:98-147 | the arguments of a bet over a sound schedule that locks the maximum; succeeds iff the terms are convertible and all rungs can be built |
| RiskReversals.ConversionKeepsWorth | sapio-contrib/src/contracts/derivatives/risk_reversal.rs:111-139 | at its strike each outcome pays the user what the amount is worth there, rounded down, and the operator the rest; the amount locked is the worth at the lower end |
| RiskReversals.StrikeAsI64 | sapio-contrib/src/contracts/derivatives/risk_reversal.rs:130 | a strike keeps its value as an i64 iff it is below 2^63, and is negative iff it is not |
| RiskReversals.StrikesKeepOrderIff | sapio-contrib/src/contracts/derivatives/risk_reversal.rs:121-138 | outcomes are in the order of their strikes iff these do not cross 2^63 |
| RiskReversals.BetSettlesRung | sapio-contrib/src/contracts/derivatives/risk_reversal.rs:119-147 | a bet over a sound schedule pays exactly one rung at each attested price, strikes that turn negative included; a single rung only from its strike on |
| RiskReversals.PaysFallenRungIff | sapio-contrib/src/contracts/derivatives/risk_reversal.rs:130 | the rung paid is the one the price falls on, at every price, iff all strikes are below 2^63 |
| RiskReversals.GridSorted | sapio-contrib/src/contracts/derivatives/risk_reversal.rs:119-139 | sorting a schedule's outcomes puts those whose strikes turned negative first, and changes nothing else |
| GreedyPayouts.BinarySearch | sapio/src/ordinals/mod.rs:268 | any match, or the one place where the value belongs |
| GreedyPayouts.GreedyAssignOuts | sapio/src/ordinals/mod.rs:262-288 | returns iff the greedy walk reaches zero; then it pushed that walk, the rest is sorted, and nothing was lost |
| GreedyPayouts.GreedyWalkFacts | sapio/src/ordinals/mod.rs:262-288 | a walk sums to the total and never grows |
| GreedyPayouts.GreedyWalkUnique | sapio/src/ordinals/mod.rs:262-288 | there is at most one walk |
| GreedyPayouts.GreedyCanMissASplit | sapio/src/ordinals/mod.rs:275-282 | payouts that could be split exactly may still abort |

## Left out

* The command line, the configuration wizard, the emulator's server and client, RPC, the WASM host and client
  bindings, macros, JSON schemas and serialisation: input, output and plumbing.
* Secp256k1, BIP-32 key derivation, Schnorr signing, the script compiler and descriptors: parameters, as above.
  The emulator is taken not to change the unsigned transaction; a refusal to sign is an error.
* Labels, colours, SIMPs and their contexts, schemas, and what metadata holds. These affect no script, amount or
  path, but metadata and SIMPs do affect success: `Compile` fails where the last derivation or the metadata itself
  does, and the program also fails where a SIMP generator does (`sapio/src/contract/compiler/cache.rs:45` and `:78`,
  `sapio/src/contract/compiler/mod.rs:274-275`).
* The network of an address, which its script does not tell.
* `pick_key_from_miniscripts`, which chooses the taproot internal key. That key is a way to spend of its own, and the
  theorems about meaning cover the script leaves only.
* `set_sequence`, `set_lock_time` and the delay of a payment tree: their units are a module of their own.
* The minimum side of `AmountRange`, and pre-compiled outputs, which ignore the context they are given.
* Ordinals planning (`output_plan`, `build_plan`, `allocate_ordinals`) and the ordinals a context carries.
* The other contracts: floating-point curves, tic-tac-toe, channels, escrows and NFTs. The chunked payment tree
  of `sapio-contrib/src/contracts/treepay.rs`, which a pool update pays, is a parameter of the update.
* The hash of non-empty input scripts in the template hash: builders make none.
* Compiled objects are values whose templates are listed in the order of their hashes; `Compiler.Compile` yields
  the same content as two maps.
- FundsFlow.NoMoneyCreated: contracts are trees whose then-functions are lists of builder steps, so guards, conditions and continuations play no part in it; `CompiledFunds.CompiledContractsConserve` is the same for what the compiler returns, on the condition that templates are made by builders.
- Compiler.Compile: its success condition is for contracts whose SIMP generators do not fail.
- Compiler.CompileNext: user code may return `Diverges` as well, so that answer does not mean an endless run.
- TapTrees.RelistScripts: the taproot builder is modelled by its documented rule (merge nodes of equal depth, fail on depth above 128 or on order), not by its source, which is not part of this repository.
- Binder.BindTransaction: which scripts cannot be re-listed, what is not signed and what the index refuses are one parameter; that compiled trees can always be re-listed is `TapTrees.CommitAndRelist`. Metadata and the other fields of the signed form are not modelled.
- PaymentTrees.Expand: the derivation of contexts for single keys in the mining pool is not modelled; payees are leaves.
- Compiler.CollectClauses: which of several errors is returned is left to the order of the loop and not stated.
