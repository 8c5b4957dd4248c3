# Verified model of pysui's transaction pipeline

pysui builds Sui programmable transaction blocks (PTBs), resolves the objects they name, finds the
coins that pay for them, and exchanges them as JSON. This project models that pipeline and the byte
codecs and bookkeeping under it in Dafny, and proves what they promise.

Code that changes things step by step (the builder, deferred resolution, the export and import
loops, the caches, the paging accumulator, the byte loops) is modelled by classes and methods with
loops; each is proved against a specification function, and the promises are proved about those
functions. Expressions and recursion are modelled by functions.

| files | what they model |
|---|---|
| `Base`, `Utf8`, `LittleEndian`, `Uleb` | addresses and hexadecimal text, UTF-8, fixed-width and ULEB128 integers |
| `Ptb` | call arguments, commands, what an argument denotes |
| `Json`, `TxbJson`, `TxbExport`, `TxbImport`, `TxbRoundTrip`, `TxbSchema` | JSON export with `$Intent` rewriting, import with a result map, the round trip, and the document's schema and contents |
| `BuilderSpec`, `Builder`, `BuilderLaws`, `Calls`, `Compression` | the builder state machine, its invariants over runs, what each call leaves behind, input compression |
| `WithdrawalRuns` | which runs of the builder give blocks that survive the round trip |
| `Resolution`, `Transaction` | deferred objects, the object cache, `raw_kind` |
| `ImportResolution`, `ImportPayment` | resolving an imported block against resolving the original, and paying for it |
| `Gas`, `Payment`, `GasDraws` | coin selection, what commands draw from the gas coin, payment of a built block |
| `Encoder`, `EncoderLaws`, `EncoderForms`, `EncoderPrefixes`, `PureInput` | the type-directed argument encoder and `PureInput.pure` |
| `Checkpoint` | the cursor decoder of checkpoint contents, version 2 |
| `StructTags`, `StructTagLaws`, `TypeTags`, `TypeTagLaws` | the printers and parsers of struct tags and of type tags |
| `MultiSigs` | multi-signature sets, the signer bitmap, the byte layout |
| `Lru`, `LruRuns`, `Paging` | the LRU cache around functions, fetching all pages |

How things are represented:

- A PTB is a list of call arguments and a list of commands (`Ptb.Block`); commands are generic in
  their arguments, so "the command with its inputs inlined" is `Map` of a denotation. An exception is
  `Err`; the text only tells raise sites apart.
- The builder's `inputs` dictionary is keyed by identity, so it is a sequence of entries with
  fresh keys. The client is a function from ids (or tokens) to answers; cache and server state are
  explicit.
- A run of the builder is a list of turns: a call of a command method, or an input registered without
  a command, as `withdrawal` does.
- Base64 text is a JSON leaf that holds its bytes; base58 digests are opaque text. Type tags are the
  enum of the source, written to JSON and read back by `TypeTags`. Shifts and masks on unbounded
  integers are divisions and remainders.

Results that came out false of the code, each with an input at which it fails and the exact condition
under which it holds:

- A block does not always import again, nor keep its meaning when it does. `TxbRoundTrip.RoundTrip`
  gives the exact condition for the import, and per command for the meaning;
  `TxbRoundTrip.SponsorIsLost` is a sponsor withdrawal whose source is dropped.
  `WithdrawalRuns.RunIsExportable` says which runs of the builder give blocks whose withdrawals are kept.
- `type_tag_from` reads of a vector only what stands between the innermost brackets
  (`TypeTagLaws.GenericElementIsLost`). `type_tag_to_str` and `type_tag_from` are not inverse: no vector survives, nor an address or a signer,
  nor a struct with "vector" in a name or with a branching parameter list (`TypeTagLaws.SurvivesExactly`,
  `TypeTagLaws.VectorComesBackAs`, `TxbRoundTrip.VectorTagIsLost`).
- JSON does not carry the reference kind of a deferred object, and resolution reads it. Importing and
  then resolving means what resolving means exactly for the commands that mention no deferred object
  that was taken by mutable reference and turns out to be shared (`ImportResolution.ImportThenResolve`,
  `ImportResolution.MutRefIsLost`).
- Coin selection takes one coin for a budget of zero or less, where none would do
  (`Gas.SelectionMinimal`, `Gas.OneCoinForNothing`).
- After resolution the object registry agrees with the inputs exactly if every deferred id was in
  canonical form (`Resolution.ResolutionRegistry`). `hexstring_to_sui_id` does not always give that
  form: upper-case digits stay upper-case, and of a bare id of 66 digits the first two are ignored
  later. Such an id resolves, and its object then passes the conflict filter
  as a gas coin: `Payment.UpperCaseIdSlipsThrough` is a run with one call. `Payment.NeverSharesExactly` is the
  exact condition. An imported builder has an empty registry, so that its resolved objects pass the
  filter too (`ImportPayment.ImportIsPaidFor`, `ImportPayment.ImportedObjectIsSpent`). Ids with prefix
  and 62 or 63 digits, and bare ids of 64 or 65, are left unpadded too, but do not parse, so that
  resolution raises (`Base.PrefixedIdCanonical`, `Base.BareIdCanonical`).
- The argument encoder loses an Option payload that is `[None]` (`EncoderLaws.PresentListLost`);
  `EncoderLaws.RecoveredExactly` says exactly which values are recovered. Bytes given for a vector of
  non-scalars are not split, and may encode to a proper prefix of a list's encoding
  (`EncoderLaws.UnsplitBytesNotPrefixFree`). `EncoderPrefixes.TypePrefixFreeExactly` says for which
  types that happens, `EncoderPrefixes.SplitPrefixFree` for which values it does not.
- Struct tags with several type parameters above the innermost level do not survive printing and
  parsing (`StructTagLaws.SurvivesExactly`, `StructTagLaws.BranchingTagLosesParameter`).
- `validate_signers` counts a signer listed twice twice, the bitmap once
  (`MultiSigs.BitWeightExactly`, `MultiSigs.DoubleSignerFallsShort`); the bitmap reaches the threshold
  exactly if the distinct signers do (`MultiSigs.BitmapReachesThresholdExactly`). `deserialize` checks
  no length (`MultiSigs.AcceptedBytesAreCanonical`, `MultiSigs.LongerBytesAccepted`). The documentation
  allows ten keys; the constructor accepts two to nine, and so does the model. Its test of the threshold against
  2549 never decides (`MultiSigs.AcceptedExactly`).

## Model

| member | source | states |
|---|---|---|
| TxbRoundTrip.RoundTrip | pysui/sui/sui_common/txb_json.py:334-456 | a block that exports imports again if and only if every type tag that the document shows is read; then with as many inputs and commands, and each command means what it meant, up to the reference kind of deferred objects, if and only if `CommandKept` holds of it (its type tags survive, references look back, a redeeming call has its withdrawal as sole argument, its type, sender as source) |
| TxbRoundTrip.ExportThenImport | pysui/sui/sui_common/txb_json.py:334-456 | an exportable block whose type tags survive comes back, in the extended format, with the same commands in order, each denoting the same earlier results and, up to the reference kind of deferred objects, the same call arguments |
| ImportResolution.ImportThenResolve | pysui/sui/sui_common/async_txn.py:245-295 | a builder holding the import of an exportable block resolves exactly if the original does, and then a command means the same exactly if its type tags survive and it mentions no deferred object taken by mutable reference that turns out to be shared |
| ImportResolution.MutRefIsLost | pysui/sui/sui_common/async_txn.py:94-124 | one call on such an object: it exports, the import resolves as the original does, and the resolved calls differ |
| TxbRoundTrip.VectorTagIsLost | pysui/sui/sui_bcs/bcs.py:391-447 | a call with a vector for its type argument exports; if the elements are of a basic type it imports with that type in its place, and otherwise not at all |
| TypeTags.TypeTagFrom | pysui/sui/sui_bcs/bcs.py:391-429 | the dispatch and the wrapping loop compute the specified tag, or raise |
| TypeTagLaws.SurvivesExactly | pysui/sui/sui_bcs/bcs.py:391-447 | with names free of delimiters, a type tag is read back as it was written exactly if it is a bool or an integer type, or a struct whose tag survives and none of whose names contains "vector" |
| TypeTagLaws.VectorComesBackAs | pysui/sui/sui_bcs/bcs.py:438-447 | a vector of such a basic type comes back as that type, any other vector is not read at all |
| TypeTagLaws.NamesAreRead | pysui/sui/sui_bcs/bcs.py:391-447 | bool and the integer types are read by their lower-case and their upper-case names |
| TypeTagLaws.PrefixIsAddress | pysui/sui/sui_bcs/bcs.py:391-429 | a text with the prefix 0x that is no path is the address type |
| TypeTagLaws.SpacesDoNotMatter | pysui/sui/sui_bcs/bcs.py:391-429 | a space anywhere changes nothing |
| TypeTagLaws.VectorsAreRead | pysui/sui/sui_bcs/bcs.py:391-429 | `vector<..>` nested any number of times around a text without brackets is that many vectors of what the text is read as |
| TypeTagLaws.GenericElementIsLost | pysui/sui/sui_bcs/bcs.py:391-429 | a vector of a struct with a parameter is read as a vector of the parameter |
| WithdrawalRuns.RunIsExportable | pysui/sui/sui_common/async_txn.py:920-1031 | a run that redeems through the accumulator calls, or in one later call what `withdrawal` returned, gives an exportable block exactly if no redeeming call draws on the sponsor |
| WithdrawalRuns.WithdrawThenRedeem | pysui/sui/sui_common/async_txn.py:1000-1031 | registering a withdrawal and redeeming it in a later call is such a run |
| WithdrawalRuns.TidyIsExportable | pysui/sui/sui_common/async_txn.py:920-998 | a block whose redeeming calls have the accumulator's form, each with a withdrawal of its own, is exportable exactly if these all draw on the sender |
| TxbRoundTrip.ImportOfExport | pysui/sui/sui_common/txb_json.py:745-800 | which inputs and commands the import of any exported block has, and that it fails exactly if a type tag is not read |
| TxbRoundTrip.LayoutIsPermuted | pysui/sui/sui_common/txb_json.py:385-456 | the imported inputs are those of the block with its type tags read back, as they come back through JSON, in the order plain, free withdrawals, redeemed withdrawals |
| TxbRoundTrip.OrderIsPermutation | pysui/sui/sui_common/txb_json.py:385-456 | that order lists every input index exactly once |
| TxbRoundTrip.ExportableKeepsMeaning | pysui/sui/sui_common/txb_json.py:334-456 | in the extended format every command of an exportable block whose type tags survive is kept: its results look back, and each redeemed withdrawal is the sender's and the sole argument of its one call |
| TxbRoundTrip.ExportedInScope | pysui/sui/sui_common/txb_json.py:420-456 | the exported form has no dangling input, and every result reference points backwards past the prepended intents |
| TxbRoundTrip.SponsorIsLost | pysui/sui/sui_common/txb_json.py:438-452 | a redeemed sponsor withdrawal exports but is not kept |
| TxbSchema.DocumentObeys | pysui/sui/sui_common/txn_json_schema.json:140-442 | whatever the block and the format, every input and command of an exported document has exactly the keys, kinds of values and names that the schema asks for: pure, resolved and deferred inputs (of a deferred one only the id in the standard format), commands, and intents with name, inputs and data |
| TxbSchema.DocumentShows | pysui/sui/sui_common/txb_json.py:334-456 | what the document shows, key by key: the inputs that stay in order, the unredeemed withdrawals as intents in front, then each command, or the intent in the place of the last call to redeem a withdrawal; an argument names the new place of its input, or the result of its withdrawal's intent, and results are counted behind those intents |
| TxbSchema.ExportsExactly | pysui/sui/sui_common/txb_json.py:379-383 | a block exports exactly if every tag that is shown has a text and, in the standard format, every withdrawal is redeemed |
| TxbSchema.IntentIsRead | pysui/sui/sui_common/txb_json.py:771-796 | an intent is accepted exactly if its name is one of the two and its data ask for a withdrawal |
| TxbSchema.WithdrawalIsRead | pysui/sui/sui_common/txb_json.py:776-782 | a withdrawal intent becomes an input; without a source it draws on the sender |
| TxbSchema.RedeemIsRead | pysui/sui/sui_common/txb_json.py:783-794 | a coin-with-balance intent becomes a sender withdrawal and its redeeming call: of SUI without a type, as a coin unless the data say balance |
| TxbSchema.DeferredIsRead | pysui/sui/sui_common/txb_json.py:193-203 | a deferred object whose flags or type are missing has the flags false and no type, and always reference kind 0 |
| TxbSchema.VectorWithoutType | pysui/sui/sui_common/txb_json.py:308-314 | a vector command without a type, or with an empty one, has none |
| Json.RewriteThenParse | pysui/sui/sui_common/txb_json.py:552-573 | rewriting references on the JSON tree and then parsing is parsing and then substituting simultaneously, for every document the schema admits and every result map |
| Json.CommandRoundTrip | pysui/sui/sui_common/txb_json.py:216-321 | parsing a printed command gives it back with its type tags as they are read, for every kind, and fails exactly if one is not read |
| Json.ArgumentRoundTrip | pysui/sui/sui_common/txb_json.py:70-93 | parsing a printed argument gives it back |
| Json.RewritePrintedCommand | pysui/sui/sui_common/txb_json.py:552-573 | rewriting and parsing a printed command substitutes exactly its argument positions |
| TxbJson.CallArgRoundTrip | pysui/sui/sui_common/txb_json.py:118-206 | parsing a printed input gives it back, but for the reference kind of deferred objects, in the standard format their flags, and the type of a withdrawal as it is read |
| TxbExport.ProcessIntents | pysui/sui/sui_common/txb_json.py:334-456 | the export loops compute the specified inputs, intents and commands, or refuse withdrawals in the standard format and type tags that do not print |
| TxbExport.ClassifyRedeemed | pysui/sui/sui_common/txb_json.py:358-376 | each redeemed withdrawal is mapped to the last command that redeems it |
| TxbExport.ByCommand | pysui/sui/sui_common/txb_json.py:415-418 | the reverse lookup has exactly the redeeming commands, with their withdrawal and output kind |
| TxbExport.PlainExport | pysui/sui/sui_common/txb_json.py:352-356 | without withdrawals the export is every input and command printed as it is, unless a type tag does not print |
| TxbImport.FromJson | pysui/sui/sui_common/txb_json.py:745-800 | the replay loops on a new builder leave the imported block in it, with an empty object registry |
| TxbImport.ReplayCommand | pysui/sui/sui_common/txb_json.py:771-800 | one turn of the replay appends the rewritten command, or what the intent stands for, and grows the result map |
| TxbImport.ReplayRedeem | pysui/sui/sui_common/async_txn.py:920-998 | a coin-with-balance intent appends a sender withdrawal and its redeeming call |
| Ptb.MapAgree | pysui/sui/sui_bcs/bcs.py:934-960 | two renamings of a command agree exactly when they agree on its arguments |
| BuilderLaws.EarlierArgumentKeepsMeaning | pysui/sui/sui_common/txn_transaction_builder.py:95-246 | an argument returned earlier denotes the same input or command after any later run |
| BuilderLaws.RunSafe | pysui/sui/sui_common/txn_transaction_builder.py:225-567 | after every run of calls and registrations, inputs are in range and results name earlier commands |
| BuilderLaws.RunCounts | pysui/sui/sui_common/txn_transaction_builder.py:225-246 | `command_frequency` is the per-kind count of the commands, kept by every run |
| BuilderLaws.InitCounts | pysui/sui/sui_common/txn_transaction_builder.py:43-60 | ... and true of a new builder |
| BuilderLaws.RunRegistry | pysui/sui/sui_common/txn_transaction_builder.py:127-158 | an id is registered exactly when some object input has it, kept by every run |
| BuilderLaws.RegistryTestIsRedundant | pysui/sui/sui_common/txn_transaction_builder.py:143-156 | the membership test before the duplicate scan never changes the scan's answer |
| BuilderLaws.RunNoDuplicates | pysui/sui/sui_common/txn_transaction_builder.py:87-158 | a compressing builder never has two equal pure inputs, two equal objects or two deferred inputs of one id |
| Calls.CallHolds | pysui/sui/sui_common/txn_transaction_builder.py:253-567 | a call that succeeds appends one command, or a split and a transfer, each of whose fields denotes what the caller passed for it: the bytes of a value, an object's reference, a deferred object with its flags, a withdrawal; the arguments it returns name that command, or its parts in order |
| Calls.SucceedsExactly | pysui/sui/sui_common/txn_transaction_builder.py:253-567 | a call raises exactly if some argument has a form that the parameter does not take |
| Calls.RegistersExactly | pysui/sui/sui_common/txn_transaction_builder.py:87-222 | what registering one argument does: a compressing builder hands back the first equal input, or the first of the deferred object's id, and otherwise a new last input; which id is registered as what |
| Compression.RunSimulates | pysui/sui/sui_common/txn_transaction_builder.py:87-158 | two builders run in step, on turns whose handed-back arguments mean the same in each, have matching commands, inputs inlined |
| Compression.CompressionKeepsMeaning | pysui/sui/sui_common/txn_transaction_builder.py:87-158 | from empty builders: equal commands once inputs are inlined, up to the object id for deferred ones |
| Compression.HandedBackMatches | pysui/sui/sui_common/txn_transaction_builder.py:87-158 | arguments that mean the same in both builders do so after any later turns |
| Compression.SameTurnsMatch | pysui/sui/sui_common/txn_transaction_builder.py:87-158 | the same turns match if they pass values and results of commands but no index of an input |
| Builder.ProgrammableTransactionBuilder.FindDuplicate | pysui/sui/sui_common/txn_transaction_builder.py:87-125 | the scan finds the first equal input |
| Builder.ProgrammableTransactionBuilder.FindSameObject | pysui/sui/sui_common/txn_transaction_builder.py:143-156 | the scan finds the first input of that object id |
| Builder.ProgrammableTransactionBuilder.InputPure | pysui/sui/sui_common/txn_transaction_builder.py:95-115 | the whole new state and the returned argument |
| Builder.ProgrammableTransactionBuilder.InputObj | pysui/sui/sui_common/txn_transaction_builder.py:127-158 | the whole new state and the returned argument, resolved or deferred |
| Builder.ProgrammableTransactionBuilder.InputObjFromWithdrawal | pysui/sui/sui_common/txn_transaction_builder.py:216-222 | a withdrawal is always a new input |
| Builder.ProgrammableTransactionBuilder.ResolveArg | pysui/sui/sui_common/txn_transaction_builder.py:285-311 | a user's argument becomes the specified input or is passed on |
| Builder.ProgrammableTransactionBuilder.ResolveArgs | pysui/sui/sui_common/txn_transaction_builder.py:315-355 | the loop over arguments; what was registered before an exception stays |
| Builder.ProgrammableTransactionBuilder.AddCommand | pysui/sui/sui_common/txn_transaction_builder.py:225-246 | appends, counts, and returns one result or as many nested results as asked for |
| Builder.ProgrammableTransactionBuilder.Execute | pysui/sui/sui_common/txn_transaction_builder.py:253-567 | every command method: the arguments in order, then the command, as specified; `Calls` states what that leaves behind |
| Builder.ProgrammableTransactionBuilder.GetUnresolvedInputs | pysui/sui/sui_common/txn_transaction_builder.py:182-188 | exactly the deferred inputs, by index |
| Builder.ProgrammableTransactionBuilder.ResolvedObjectInputs | pysui/sui/sui_common/txn_transaction_builder.py:191-203 | replaces those entries in place and re-registers their ids |
| Builder.ProgrammableTransactionBuilder.ShallowClone | pysui/sui/sui_common/txn_transaction_builder.py:206-213 | a new builder in the same state |
| Resolution.ResolutionLaws | pysui/sui/sui_common/async_txn.py:94-124 | resolution succeeds exactly if the client answers and every deferred id has a usable summary; then nothing stays deferred, length, order, commands and other inputs are unchanged, and each deferred input becomes a reference of its own id from a summary of that id: shared at its initial version if there is one, mutable exactly for reference kind 2, otherwise receiving if flagged and owned if not, at the summary's version and digest; on failure nothing changes |
| Resolution.AsksForTheMissing | pysui/sui/sui_common/async_txn.py:245-295 | the client is asked for the ids of the deferred inputs that are not cached, in input order |
| Resolution.ResolutionIdempotent | pysui/sui/sui_common/async_txn.py:245-295 | resolving again changes nothing, whatever cache and client say then |
| Resolution.ResolutionRegistry | pysui/sui/sui_common/txn_transaction_builder.py:191-203 | the registry agrees afterwards exactly if every deferred id was canonical |
| Resolution.NewRegistryValues | pysui/sui/sui_common/txn_transaction_builder.py:191-203 | under a deferred id, as the caller gave it, the registry holds the kind of reference that the last input of that id became; all else is as before |
| Transaction.AsyncSuiTransaction.ResolveDeferredInputs | pysui/sui/sui_common/async_txn.py:245-295 | the batched loops over cache and client give the target builder the specified state, all or nothing |
| Transaction.AsyncSuiTransaction.RawKind | pysui/sui/sui_common/async_txn.py:297-301 | the block that resolving in place would give, without modifying the builder |
| Transaction.AsyncSuiTransaction.MergeFetched | pysui/sui/sui_common/async_txn.py:279-288 | each fetched summary that was asked for is added to the cache, in order, and resolves every input that asked for its id; an exception leaves those added before it |
| Transaction.ObjectCache.AddObject | pysui/sui/sui_common/executors/cache.py:105-114 | the cache view after one object is added |
| Base.ParsePrintAddress | pysui/sui/sui_bcs/bcs.py:33-49 | parsing a printed address gives it back, and padding leaves it alone |
| Base.AddressDigits | pysui/sui/sui_bcs/bcs.py:33-49 | a printed address is the prefix and two lower-case digits for each byte in turn |
| Base.PrefixedIdCanonical | pysui/sui/sui_utils.py:134-141 | for every hexadecimal id with prefix: whether what `hexstring_to_sui_id` returns parses, and whether it is canonical |
| Base.BareIdCanonical | pysui/sui/sui_utils.py:134-141 | ... and of one without |
| Resolution.CanonicalIsListed | pysui/sui/sui_common/txn_gas.py:167-181 | what a caller can check beforehand: canonical deferred ids are listed, so that no payment shares an object |
| Gas.SelectCoins | pysui/sui/sui_common/txn_gas.py:78-97 | the greedy loop computes the specified selection |
| Gas.SelectionComplete | pysui/sui/sui_common/txn_gas.py:51-97 | it fails exactly when no set of at most 256 coins covers the budget, and otherwise returns such a set of distinct input coins |
| Gas.SelectionMinimal | pysui/sui/sui_common/txn_gas.py:51-97 | no smaller set of the coins covers the budget, exactly when the budget is positive or there are no coins |
| Gas.SelectsLargest | pysui/sui/sui_common/txn_gas.py:78-97 | the selected coins fall in balance, and no other coin is worth more than any of them |
| Gas.LargestAreLargest | pysui/sui/sui_common/txn_gas.py:78-97 | the exchange argument: no set of coins is worth more than as many of the largest |
| Gas.PaymentCovers | pysui/sui/sui_common/txn_gas.py:167-198 | the payment avoids the objects in use and covers budget and draw; there is none exactly when the remaining coins cannot |
| Gas.OneCoinForNothing | pysui/sui/sui_common/txn_gas.py:78-97 | for a budget of zero one coin is taken |
| Gas.GasDataCovers | pysui/sui/sui_common/txn_gas.py:102-198 | gas data is found exactly when coins are offered, a budget is given or simulated, and at most 256 of the offered coins not in use cover budget and draw; the payment is such a set, of coins the caller agreed to spend; a simulated budget is the least that covers computation and overhead with and without storage |
| Payment.InspectForGasCoin | pysui/sui/sui_common/txn_base.py:284-312 | whether the gas coin is mentioned, and the sum of the pure amounts split from it |
| Payment.AccumulateSplitCoinDraw | pysui/sui/sui_common/txn_base.py:257-282 | the draw of one split |
| Payment.AmountRecovered | pysui/sui/sui_common/txn_base.py:257-282 | an amount is recovered exactly from its little-endian u64 bytes |
| Payment.PaymentAvoidsInputs | pysui/sui/sui_common/txn_gas.py:167-181 | if every object is registered under its canonical id, no payment from coins with canonical ids shares an object with the resolved block |
| Payment.NeverSharesExactly | pysui/sui/sui_common/txn_gas.py:167-181 | no payment ever shares an object with the resolved block, exactly if that is so |
| Payment.RegisteredIsListed | pysui/sui/sui_common/txn_gas.py:167-181 | where the registry agrees with the inputs, that is so exactly if every deferred id is registered in its canonical form |
| ImportPayment.ImportIsPaidFor | pysui/sui/sui_common/txb_json.py:745-800 | for an imported and resolved builder: every payment covers budget and draw, and none shares an object exactly if each object is a deferred input by its canonical id |
| ImportPayment.ImportedObjectIsSpent | pysui/sui/sui_common/txb_json.py:745-800 | an imported block with one resolved object, which some payment spends |
| Payment.UpperCaseIdSlipsThrough | pysui/sui/sui_utils.py:134-141 | a run of one call with an upper-case id, whatever case the client answers in: it resolves, the registry disagrees, and some payment shares its object |
| Payment.BuiltTransactionIsPaidFor | pysui/sui/sui_common/async_txn.py:407-451 | from an empty builder, through any run and successful resolution: every payment covers the budget plus every split from the gas coin, and no payment shares an object with the block's inputs exactly if every deferred id is registered in canonical form |
| GasDraws.RunDraws | pysui/sui/sui_common/txn_base.py:257-312 | after any run, the draw that the inspection finds in the commands is what the calls that did not raise split from the gas coin, where an amount that is the result of a command counts as zero |
| GasDraws.NumbersDraw | pysui/sui/sui_common/txn_base.py:257-282 | a call that splits numbers below 2^64 off the gas coin draws their sum |
| GasDraws.TransferDrawsNumber | pysui/sui/sui_common/txn_base.py:257-282 | a call that transfers such an amount of it draws that amount |
| GasDraws.RunIsPaidFor | pysui/sui/sui_common/txn_base.py:257-312 | so a payment of the resolved block covers the budget plus what the calls split off, results of commands counting as zero |
| Uleb128.SerializeAsUleb128 | pysui/sui/sui_utils.py:95-106 | the encoding of every natural number |
| Uleb128.SealUleb128 | pysui/zklogin_seal/seal_client.py:21-31 | the same encoding |
| Uleb128.DecodeUleb128 | pysui/sui/sui_bcs/sui_checkpoint_bcs.py:162-169 | the decoding loop; running off the data raises |
| Uleb128.DecodeEncoded | pysui/sui/sui_bcs/sui_checkpoint_bcs.py:162-169 | started at an encoding it returns the number and the position just after it |
| Uleb128.EncodingIsShortest | pysui/sui/sui_utils.py:95-106 | nothing that decodes to the number is shorter |
| Uleb128.EncodingIsUnique | pysui/sui/sui_utils.py:95-106 | and nothing else of that length decodes to it |
| Uleb128.UlebAt | pysui/sui/sui_utils.py:95-106 | each byte holds the next seven bits, with the high bit set on all but the last |
| Uleb128.PrefixFree | pysui/sui/sui_utils.py:95-106 | no encoding is a proper prefix of another |
| Uleb128.SignedRequestBytes | pysui/zklogin_seal/seal_client.py:34-38 | the three length-prefixed parts |
| Uleb128.SignedRequestHolds | pysui/zklogin_seal/seal_client.py:34-38 | the transaction, the key and the verification key are read back in this order, and nothing is left |
| Uleb128.SignedRequestDeterminesParts | pysui/zklogin_seal/seal_client.py:34-38 | equal request bytes have equal parts |
| Encoder.RawValue | pysui/sui/sui_common/txn_arg_encoder.py:84-147 | the dispatch on types, with its error cases |
| Encoder.RawVectorOf | pysui/sui/sui_common/txn_arg_encoder.py:174-182 | the encodings of all elements behind their number, or the first failure |
| Encoder.RawVectorOfBytes | pysui/sui/sui_common/txn_arg_encoder.py:105-117 | the bytes shortcut |
| Encoder.VecmapRaw | pysui/sui/sui_common/txn_arg_encoder.py:158-171 | all pairs behind their number, or the first failure |
| Encoder.SplitChunks | pysui/sui/sui_common/txn_arg_encoder.py:109-110 | the complete slices, in order |
| EncoderLaws.RecoveredExactly | pysui/sui/sui_common/txn_arg_encoder.py:67-182 | for every type and accepted value, a decoder driven by the type gives value and remainder back if and only if the value is plain |
| EncoderForms.DecodesToForm | pysui/sui/sui_common/txn_arg_encoder.py:67-182 | what the bytes of any accepted value stand for, whatever follows them: the decoder reads its plain form, in which text and bytes for a vector are their chunks, dicts their pairs in order, addresses padded, bools numbers and numbers bools where these are wanted |
| EncoderForms.UntakenApart | pysui/sui/sui_common/txn_arg_encoder.py:116-117 | the values without a plain form: text or bytes for a vector of non-scalars are written as they are, behind their length |
| EncoderForms.TakenExactly | pysui/sui/sui_common/txn_arg_encoder.py:67-182 | which values each type accepts |
| EncoderForms.IntegerSizes | pysui/sui/sui_common/txn_arg_encoder.py:33-70 | each integer type accepts the numbers of its width, and encodes them in that many bytes, the lowest first |
| EncoderLaws.PrefixFree | pysui/sui/sui_common/txn_arg_encoder.py:67-182 | no encoding of a plain value is a prefix of another plain value's, and equal encodings have equal values |
| EncoderPrefixes.SplitPrefixFree | pysui/sui/sui_common/txn_arg_encoder.py:67-182 | no encoding of an accepted value is a proper prefix of another's, as long as neither has bytes or text for a vector of non-scalars that may be longer than one byte |
| EncoderPrefixes.TypePrefixFreeExactly | pysui/sui/sui_common/txn_arg_encoder.py:67-182 | all accepted values of a type have prefix-free encodings exactly if it accepts no such vector |
| EncoderLaws.AbsentExactly | pysui/sui/sui_common/txn_arg_encoder.py:148-155 | an Option is encoded as absent exactly for None and [None] |
| EncoderLaws.PresentListLost | pysui/sui/sui_common/txn_arg_encoder.py:148-155 | a present list holding one absent Option has the encoding of None |
| EncoderLaws.UnsplitBytesNotPrefixFree | pysui/sui/sui_common/txn_arg_encoder.py:116-117 | bytes for a vector of vectors encode to a proper prefix of a list's encoding |
| EncoderLaws.BytesShortcut | pysui/sui/sui_common/txn_arg_encoder.py:101-123 | bytes for a vector of integers: the payload is the input cut to a multiple of the width, and the list of little-endian chunks encodes the same |
| PureInput.Pure | pysui/sui/sui_common/txn_pure.py:195-205 | staging and joining compute the specified bytes or the first failure |
| PureInput.PureAgrees | pysui/sui/sui_common/txn_pure.py:30-205 | on bools, sized integers, text, addresses and nested lists of them `PureInput.pure` gives the typed encoder's bytes |
| Checkpoint.DecodeCheckpointContents | pysui/sui/sui_bcs/sui_checkpoint_bcs.py:149-193 | the nested loops compute the specified records, or raise |
| Checkpoint.ContentsDecode | pysui/sui/sui_bcs/sui_checkpoint_bcs.py:149-193 | an encoded list of records decodes to itself, whatever follows |
| Checkpoint.SuccessMeansComplete | pysui/sui/sui_bcs/sui_checkpoint_bcs.py:171-193 | if any payload decodes, every digest and signature has its full declared length, in place, and the cursor stayed inside |
| StructTags.MakeStr | pysui/sui/sui_bcs/bcs.py:464-483 | the printed text, or the failure on a parameter that is not a struct |
| StructTagLaws.PrintedText | pysui/sui/sui_bcs/bcs.py:464-483 | padded address, module and name between double colons, then the parameters in angle brackets between commas |
| StructTags.FromTypeStr | pysui/sui/sui_bcs/bcs.py:486-538 | the reverse walk over the parts computes the specified tag, or raises |
| StructTagLaws.SurvivesExactly | pysui/sui/sui_bcs/bcs.py:464-538 | for names free of delimiters, parsing a printed tag gives it back if and only if it has one parameter per level down to an innermost list of leaves |
| StructTagLaws.BranchingTagLosesParameter | pysui/sui/sui_bcs/bcs.py:464-538 | a tag with two parameters, the second with one of its own, parses back without the innermost |
| StructTagLaws.SpelledParses | pysui/sui/sui_bcs/bcs.py:486-538 | what a text of that grammar parses to, with unpadded addresses and spaces around nested items |
| StructTagLaws.PrintedParsePads | pysui/sui/sui_bcs/bcs.py:464-538 | printing it again gives the text with addresses padded and spaces gone |
| MultiSigs.AcceptedExactly | pysui/sui/sui_crypto.py:330-366 | the constructor accepts exactly two to nine keys with as many weights, each fitting one byte, and a threshold from zero to their sum, which two bytes hold |
| MultiSigs.ValidateSigners | pysui/sui/sui_crypto.py:400-411 | the signers' positions if they are known and heavy enough; otherwise a reason to refuse holds |
| MultiSigs.Bitmap | pysui/sui/sui_crypto.py:448-453 | the set bits are exactly the signers' positions, and 16 bits hold them |
| MultiSigs.BitWeightExactly | pysui/sui/sui_crypto.py:400-453 | the weight at the set bits is the checked weight exactly if no signer of positive weight is listed twice |
| MultiSigs.DistinctSignersReachThreshold | pysui/sui/sui_crypto.py:400-453 | for distinct accepted signers the weights at the set bits reach the threshold |
| MultiSigs.BitmapReachesThresholdExactly | pysui/sui/sui_crypto.py:400-453 | the weight at the set bits is the sum over the distinct signers, so the bitmap reaches the threshold exactly if that sum does |
| MultiSigs.DoubleSignerFallsShort | pysui/sui/sui_crypto.py:400-453 | a signer listed twice is accepted, with a bitmap below the threshold |
| MultiSigs.Serialize | pysui/sui/sui_crypto.py:549-564 | the byte layout |
| MultiSigs.Deserialize | pysui/sui/sui_crypto.py:568-603 | the slices that are read, and the failures |
| MultiSigs.RoundTrip | pysui/sui/sui_crypto.py:549-603 | deserialize undoes serialize for every accepted set |
| MultiSigs.SerializedLayout | pysui/sui/sui_crypto.py:549-564 | the bytes place by place: 3, the number of keys, the keys of 33 bytes, the weights and the threshold in two bytes each, low byte first |
| MultiSigs.AcceptedBytesAreCanonical | pysui/sui/sui_crypto.py:568-603 | accepted bytes are the serialization of what they give exactly if their length is what the key count says |
| MultiSigs.LongerBytesAccepted | pysui/sui/sui_crypto.py:568-603 | two surplus bytes before the threshold are accepted all the same |
| Lru.LRU.GetItem | pysui/sui/sui_common/async_funcs.py:60-63 | the value, and its entry moved to the end |
| Lru.LRU.SetItem | pysui/sui/sui_common/async_funcs.py:66-70 | the entry in its old place or at the end, and the oldest dropped if there is one too many |
| Lru.AsyncLRU.Wrapper | pysui/sui/sui_common/async_funcs.py:98-105 | the answer, whether the function ran, and the new entries |
| Lru.StepKeys | pysui/sui/sui_common/async_funcs.py:60-105 | one call moves its key to the end of the keys, cut to the limit, if it returns, and changes no key if it raises |
| LruRuns.RunKeys | pysui/sui/sui_common/async_funcs.py:51-105 | after any sequential run the cached keys are the distinct keys of the history by last use, cut to the latest |
| LruRuns.RecomputesExactly | pysui/sui/sui_common/async_funcs.py:98-105 | the function runs exactly if the cache may not be used or the key is not among them |
| LruRuns.RecentExactly | pysui/sui/sui_common/async_funcs.py:66-70 | a key is among them exactly if fewer different keys than the limit were used since |
| LruRuns.SizeExactly | pysui/sui/sui_common/async_funcs.py:66-70 | the number of entries after any run is the number of different keys used, or the limit if there are more; None and 0 are no limit |
| LruRuns.RunValues | pysui/sui/sui_common/async_funcs.py:98-105 | a cached key holds the value last computed for it |
| LruRuns.WrapperIsTransparent | pysui/sui/sui_common/async_funcs.py:98-105 | around a deterministic function the wrapper answers, or raises, as the function would |
| Paging.Client.ExecuteForAll | pysui/abstracts/async_client.py:56-130 | result and log of requests, changing neither the caller's command nor any other old object; the recursion falls in rank |
| Paging.Client.Accumulate | pysui/abstracts/async_client.py:96-126 | the page loop extends the first page's object by each later page and clears its token |
| Paging.Client.ApplyCompound | pysui/abstracts/async_client.py:132-176 | the follow-up fetches on a result's object |
| Paging.EveryPageOnce | pysui/abstracts/async_client.py:102-130 | for any finite chain of pages, the server being orderly about the requests this one leads to: all items in order, one request per page with that page's token, no token left, or the failing page's error |
| Paging.ListingIsWhole | pysui/abstracts/async_client.py:56-130 | `execute_for_all` of any listing, from any token: the items of all its pages in order or the failing page's error, and one request per page with that page's token |
| Paging.SingleComesBack | pysui/abstracts/async_client.py:76-79 | a command that is not paged: its reply as it came, with one request |
| Paging.NoPathFails | pysui/abstracts/async_client.py:84-89 | a paged command without items path fails without a request |
| Paging.ModuleIsWhole | pysui/sui/sui_common/sui_commands.py:987-990 | result and requests of fetching a module: the whole listing in place of each truncated collection, functions first, and failure exactly if a needed listing fails |
| Paging.PackageIsWhole | pysui/sui/sui_common/sui_commands.py:992-994 | result and requests of fetching a package: its modules in order, each truncated one replaced by its own fetch unless that fails, and failure exactly if a page fails |

## Left out

- Network clients, GraphQL and gRPC dispatch, native crypto, blake2b, base58 and base64: parameters, opaque text, or leaves that hold their bytes.
- `canoser` reflection, the static BCS layout tables, `move_to_bcs` code generation, configuration files: declarations, or code whose members would only be easy.
- `publish_upgrade` and `custom_upgrade` compilation, and gas objects synthesised from address balances: they depend on a compiler and on hashes.
- `from_json_data`: unresolved pure values, environment switching, the rebuild with gas and expirations are not modelled, nor the call of the schema validator: `TxbSchema` states the schema of what an export writes, inputs and commands, not of the document's header; imported commands bypass `command_frequency` and `objects_registry`, so no count law is stated of an imported builder.
- Json.RewriteThenParse: is stated for documents of the shape that the JSON schema admits; on others the rewriting also touches objects that happen to look like references.
- TxbRoundTrip.RoundTrip: numbers are unbounded, so the u16 limit on input and result indices is not part of it; Python's `int()` accepts more spellings of a number than the decimal text modelled; a base58 digest is its text, which is assumed to be read back; a vector tag holds one element tag.
- Resolution.ResolutionLaws: versions in summaries are numbers already, and only the parts of a summary that decide the reference are modelled.
- Builder.ProgrammableTransactionBuilder.ResolveArg: the source normalises the id inside the caller's own object; the model normalises the value it stores and does not capture that aliasing.
- Payment.InspectForGasCoin: follows the source in not looking at the ticket of an upgrade command.
- Encoder.RawValue: text is a sequence of Unicode scalar values, so unpaired surrogates are not modelled; `encode_arg` above it, which fetches objects, is not part of this model.
- TypeTagLaws.SurvivesExactly: names with delimiters or spaces in them are not covered by the exact condition; `TxbRoundTrip.RoundTrip` covers them through `Survives`.
- StructTagLaws.SpelledParses: `strip` removes spaces, tabs, carriage returns and newlines; other Unicode white space is not modelled.
- MultiSigs.RoundTrip: keys are 33-byte blocks that the keystring decoder is assumed to accept and to give back; the key objects, the address hash and the compressed signatures are not modelled.
- LruRuns.RunKeys: concerns sequential runs; two overlapping calls of an asynchronous function are not modelled, and keys are abstract values.
- Paging.EveryPageOnce: assumes answers of the shape that the command asks for; the result for a misconfigured items path is not modelled. A package's list is rebuilt and assigned rather than written item by item, which nothing in between can observe.
- Version 1 checkpoint contents and the BCS envelope around the payload are not modelled.
