# Verified models of the agent's conversation, wait, index, transport and billing code

A Dafny 4.11 model of the parts of the agent where state, order and arithmetic are hard to
get right, with proofs for all inputs, all runs or all schedules. `dafny verify
dfyconfig.toml` checks everything.

| file | what it models |
|---|---|
| `Options.dfy`, `Sequences.dfy`, `Text.dfy` | option values, bytes; slices and concatenations; string search, replacement, trimming, decimal numerals |
| `Conversation.dfy` | conversations as items and runs of tool results; the pairing rule of the providers, by runs and by positions |
| `RepairHistory.dfy`, `HistoryLoops.dfy` | `repair_history`: what its three passes do to every run, and the in-place loops that do it |
| `Compaction.dfy` | validating, sanitizing and building a compacted history |
| `FitBudget.dfy`, `TruncateText.dfy` | shrinking a conversation to a token budget; cutting a text at a UTF-8 boundary |
| `CompactSummary.dfy` | `format_compact_summary`, on all strings |
| `WaitProtocol.dfy`, `RawTail.dfy` | feeder, resizers and waiters around a grid and a generation counter; the bounded raw tail |
| `IndexManager.dfy` | the event coalescer and the command loop that drains its queue |
| `Interner.dfy` | the arena interner and its hash buckets |
| `LineReader.dfy` | the reader task, the bounded channel and `poll_read` |
| `AcpTransport.dfy` | the JSON-RPC 2.0 request/response machine |
| `Hydration.dfy` | two producers of chat events and the reducer they feed |
| `UsageLedger.dfy` | saturating usage totals, per model and overall |
| `SegmentNames.dfy`, `SegmentDocument.dfy` | segment file names and paths; the byte-budgeted segment document |

Code that edits fields or buffers in place is a class or a method with the source's loop.
Its postcondition equates the new state with a function of the old one, and the lemmas are
about that function. Where tasks interleave, a run is an arbitrary sequence of steps, or
the method chooses arbitrarily what has arrived, so the results hold for every schedule.

## Where the code and its comments part

- `repair_history` is documented as idempotent. It is exactly if no assistant repeats an
  unanswered call id (`RepairHistory.SecondRepairIsCleanIff`, with a counterexample in
  `RepeatedDeclarationIsRepairedTwice`), in particular if every assistant declares distinct
  ids (`DistinctIdsRepairOnce`); two runs always reach a fixed point.
- `truncate_text_to_bytes` is documented to stay within `max_bytes` including its marker.
  Up to 64 bytes that holds exactly if the marker alone fits: 56 bytes and the digits of the
  text's length. Beyond 64 it holds exactly if the count of dropped bytes has at most eight
  digits, plus one for every byte by which the last character boundary falls short
  (`TruncateText.DocumentedBoundIff`); `DocumentedBoundByLength` says it in lengths alone.
- `wait_for` comments that the grid is final once the sender is gone. A resize after that
  is silent (`WaitProtocol.EndedCanMissAResize`); `EndedHasSeenTheGridIff` says when the
  grid an ended waiter saw is the current one.
- The coalescer comments that creation or modification cancels with removal and nothing is
  left to do. An indexed file modified and removed within one drain keeps its old entry
  (`IndexManager.ModifiedThenRemovedStays`), and a file reported under two spellings of its
  path ends up in either state (`TwoSpellingsDisagree`). `EveryOrderAgreesIff` is the exact
  condition for all batches and orders.
- `intern_bytes` stores the length in 16 bits and the start in 32: a new string longer than
  65535 bytes gets an id that does not denote it (`Interner.NewIdDenotesIff`).
- `chatHistoryToEvents` drops short system reminders that the replay path shows, and a
  blank assistant turn leaves a bubble only in the replay; `Hydration.HydrationsAgreeIff`
  says exactly when the two transcripts agree.
- `render_segment_md` comments that the document stays under the cap. The line breaks
  between turns are not charged to the budget: `SegmentDocument.WithinCapIff` says exactly
  when the comment holds, and `UserTurnsExceedTheCap` gives turns with which it does not.

## Model

| member | source | states |
|---|---|---|
| Conversation.StrictByPosition | crates/codegen/xai-chat-state/src/compaction_utils.rs:985-995 | The rule on runs is the rule on positions: every result's id is declared by the closest earlier item that is not a result, every declared id has such a result, and only one. |
| HistoryLoops.History.DedupDuplicateToolResults | crates/codegen/xai-grok-sampling-types/src/conversation.rs:2911-2966 | The in-place loop with its rescans leaves the last result of each id in every owned run and returns how many items went. |
| HistoryLoops.History.StripDisplacedToolResults | crates/codegen/xai-chat-state/src/compaction_utils.rs:996-1022 | The scan with running ids keeps of every run what its owner declares, and returns the other ids in order. |
| HistoryLoops.History.RepairDanglingToolCalls | crates/codegen/xai-grok-sampling-types/src/conversation.rs:2784-2844 | Recording and splicing from the back appends to every run the synthetic results its owner lacks, in call order, and returns their number. |
| HistoryLoops.History.RepairHistory | crates/codegen/xai-chat-state/src/compaction_utils.rs:970-984 | The three passes leave the repaired conversation and report exactly what they changed. |
| RepairHistory.RepairedIsPairedAndAnswered | crates/codegen/xai-chat-state/src/compaction_utils.rs:964-984 | For every conversation, after repair each result is in the run of its owner and each declared id is answered there. |
| RepairHistory.RepairedIsStrictIff | crates/codegen/xai-chat-state/src/compaction_utils.rs:964-995 | After repair no id is answered twice in a run if and only if no assistant repeats an id that its run leaves unanswered. |
| RepairHistory.RepairedKeepsNonResults | crates/codegen/xai-chat-state/src/compaction_utils.rs:970-984 | Repair keeps every item that is not a tool result, in order. |
| RepairHistory.RepairedRunsInOrder | crates/codegen/xai-chat-state/src/compaction_utils.rs:964-984 | Position by position, in every conversation: each repaired run is the last results of the declared ids in their old order, then a synthetic result for each unanswered call in the order of the calls; the items between the runs stay. |
| RepairHistory.DedupInOrder | crates/codegen/xai-grok-sampling-types/src/conversation.rs:2898-2966 | Deduplication keeps, under every assistant with calls, exactly the last result of each id, in order, and nothing else changes. |
| RepairHistory.StrippedInOrder | crates/codegen/xai-chat-state/src/compaction_utils.rs:996-1022 | The report lists exactly the results that the item before their run does not declare, in order. |
| RepairHistory.RepairedLength | crates/codegen/xai-chat-state/src/compaction_utils.rs:945-984 | The new length is the old one less the reported duplicates and stripped results plus the synthetic ones. |
| RepairHistory.UnchangedIffStrict | crates/codegen/xai-chat-state/src/compaction_utils.rs:956-984 | The report says "unchanged" if and only if the conversation obeyed the strict rule, and then it is returned as it was. |
| RepairHistory.SecondRepairIsCleanIff | crates/codegen/xai-chat-state/src/compaction_utils.rs:964-970 | A second repair reports no change if and only if no unanswered id is declared twice by an assistant; two repairs always end in a strict conversation. |
| RepairHistory.DistinctIdsRepairOnce | crates/codegen/xai-chat-state/src/compaction_utils.rs:964-970 | If every assistant declares distinct ids, one repair gives a strict conversation and a second one changes nothing. |
| RepairHistory.RepeatedDeclarationIsRepairedTwice | crates/codegen/xai-chat-state/src/compaction_utils.rs:969-970 | A conversation on which the second repair still changes something. |
| RepairHistory.LastResultWins | crates/codegen/xai-grok-sampling-types/src/conversation.rs:2898-2966 | In every conversation, run by run: after repair a declared id is answered by the last result its run had, by a synthetic one only if there was none, and the items between the runs are the same. |
| Compaction.ValidateCompactedHistory | crates/codegen/xai-chat-state/src/compaction_utils.rs:881-900 | Returns, in order, the ids of the results whose id no earlier assistant declares. |
| Compaction.SanitizeCompactedHistory | crates/codegen/xai-chat-state/src/compaction_utils.rs:917-944 | Removes exactly the results that validation reports, in the same order. |
| Compaction.SanitizedIsValid | crates/codegen/xai-chat-state/src/compaction_utils.rs:881-944 | What sanitizing returns validates, keeps all items that are not results, and is shorter by exactly the number of ids reported. |
| Compaction.SanitizedInOrder | crates/codegen/xai-chat-state/src/compaction_utils.rs:881-944 | Sanitizing keeps exactly the items that are not results without a declaring assistant before them, and reports the ids of those, both in order. |
| Compaction.ValidIffDeclaredBefore | crates/codegen/xai-chat-state/src/compaction_utils.rs:872-900 | Validation is clean if and only if every result's id is declared by some assistant before it. |
| Compaction.PairedHasNoOrphans | crates/codegen/xai-chat-state/src/compaction_utils.rs:985-995 | The contiguous-run rule is stricter than validation: a paired conversation validates. |
| Compaction.TailKeepsRule | crates/codegen/xai-chat-state/src/compaction_utils.rs:444-464 | The tail since the last real user turn of a paired (strict) conversation is paired (strict), whatever synthetic turns it spans. |
| Compaction.TailInOrder | crates/codegen/xai-chat-state/src/compaction_utils.rs:444-464 | The tail is exactly the assistants and results behind the last real user turn, in order, with a placeholder for the content of the results. |
| Compaction.BuiltObeysIff | crates/codegen/xai-chat-state/src/compaction_utils.rs:828-863 | A compacted history around strict recent messages is strict if and only if its system message neither is a result nor declares calls. |
| Compaction.BuiltInOrder | crates/codegen/xai-chat-state/src/compaction_utils.rs:828-863 | Which item stands where: system message, prefix, instructions and last query if any, all recent messages, the summary with the hint, and the reminder if any. |
| Compaction.CompactedNeedsNoSanitizing | crates/codegen/xai-chat-state/src/compaction_utils.rs:828-944 | From a strict conversation through extraction and building: the output is strict, validates, and sanitizing leaves it unchanged. |
| FitBudget.FitConversationToBudget | crates/codegen/xai-chat-state/src/compaction_utils.rs:128-161 | The loops over costs, start and tail compute the fitted conversation. |
| FitBudget.RecoverTruncatedTailUnit | crates/codegen/xai-chat-state/src/compaction_utils.rs:163-194 | Popping the last run and its owner yields them with the results cut to equal shares of what the owner leaves. |
| FitBudget.SuffixIsLongest | crates/codegen/xai-chat-state/src/compaction_utils.rs:142-151 | The backward walk finds the longest affordable suffix: a suffix is affordable if and only if it starts there or later. |
| FitBudget.FitKeepsLongestSuffix | crates/codegen/xai-chat-state/src/compaction_utils.rs:128-161 | If a suffix is kept, it is the longest affordable one that does not start with a result, behind the system head; the total is within the limit if and only if the head is. |
| FitBudget.FitKeepsLastItem | crates/codegen/xai-chat-state/src/compaction_utils.rs:127-194 | Whatever the budget, the newest item survives, at worst with its text cut to what the system head leaves, or to its fair share of what the owner leaves of that. |
| FitBudget.FitMeans | crates/codegen/xai-chat-state/src/compaction_utils.rs:123-194 | Every result, case by case: the conversation itself within the limit; the head and the longest affordable part that starts with no result; or, if there is none, the newest unit with all its results cut to one share, as large as an equal split allows and at least one token. |
| FitBudget.TruncatesTextsOnly | crates/codegen/xai-chat-state/src/compaction_utils.rs:195-223 | Truncating an item shortens each of its texts to four bytes a token, each on its own, and changes nothing else. |
| FitBudget.FitPreservesStrict | crates/codegen/xai-chat-state/src/compaction_utils.rs:128-223 | A strict (paired) conversation stays strict (paired): no result is torn from its owner. |
| TruncateText.TruncateTextToBytes | crates/codegen/xai-chat-state/src/compaction_utils.rs:225-240 | None if the text fits; else the walk back to a boundary yields the longest prefix within the limit less the reserve, and the marker. |
| TruncateText.PrefixIsLongest | crates/codegen/xai-chat-state/src/compaction_utils.rs:229-234 | That prefix is the longest one of whole characters within the limit. |
| TruncateText.LastBoundary | crates/codegen/xai-chat-state/src/compaction_utils.rs:231-234 | Its end is the last character boundary of the UTF-8 bytes at or below the limit. |
| TruncateText.DocumentedBoundIff | crates/codegen/xai-chat-state/src/compaction_utils.rs:224-240 | For every string and limit, exactly when the result including its marker is within `max_bytes`: up to 64 in the length of the text alone, beyond 64 in the digits of the dropped count and the slack of the last character boundary. |
| TruncateText.DocumentedBoundByLength | crates/codegen/xai-chat-state/src/compaction_utils.rs:224-240 | Beyond 64, the bound holds if fewer than 10^8 - 67 bytes are over the limit, and fails from 10^11 - 64 on. |
| TruncateText.AsciiBoundIff | crates/codegen/xai-chat-state/src/compaction_utils.rs:224-240 | For single-byte text the bound holds if and only if fewer than 10^8 - 64 bytes are over the limit. |
| TruncateText.TruncatedLength | crates/codegen/xai-chat-state/src/compaction_utils.rs:224-240 | The exact size of every truncated text; the kept prefix stops at most three bytes short of its room. |
| TruncateText.ShortenMeans | crates/codegen/xai-chat-state/src/compaction_utils.rs:224-240 | A text within the limit stays; any other becomes its longest front of whole characters that leaves the reserve, and the marker with the number of bytes behind that front. |
| TruncateText.MarkerReads | crates/codegen/xai-chat-state/src/compaction_utils.rs:236-239 | What the marker says. |
| TruncateText.TruncationCanGrow | crates/codegen/xai-chat-state/src/compaction_utils.rs:224-240 | Every one-byte text cut to zero bytes becomes 57 bytes long. |
| CompactSummary.FormatCompactSummary | crates/codegen/xai-chat-state/src/compaction_utils.rs:625-663 | Both loops terminate with every slice in range, on every string, and compute the formatted summary. |
| CompactSummary.FormatIsClean | crates/codegen/xai-chat-state/src/compaction_utils.rs:625-698 | For every input the output is trimmed and contains none of the six control tokens and no triple newline. |
| CompactSummary.FormatIsIdempotent | crates/codegen/xai-chat-state/src/compaction_utils.rs:625-698 | Formatting a formatted summary changes nothing. |
| CompactSummary.FixedIffClean | crates/codegen/xai-chat-state/src/compaction_utils.rs:625-698 | The fixed points are exactly the trimmed strings without control tokens and triple newlines. |
| CompactSummary.BlankLinesCollapse | crates/codegen/xai-chat-state/src/compaction_utils.rs:659-661 | A run of newlines between two texts comes out as itself up to two and as two beyond, with both texts collapsed on their own. |
| CompactSummary.NeutralizeMeans | crates/codegen/xai-chat-state/src/compaction_utils.rs:687-699 | Neutralizing puts a zero-width space behind the `<` of tokens and nowhere else, leaves no token, and is undone by erasing them; text without tokens stays. |
| CompactSummary.LeadingAnalysisIsDropped | crates/codegen/xai-chat-state/src/compaction_utils.rs:627-648 | An analysis block behind text without tags disappears if only whitespace is before it or a summary comes later; otherwise the loop leaves the text alone. |
| CompactSummary.NestedAnalysisIsDropped | crates/codegen/xai-chat-state/src/compaction_utils.rs:628-638 | An analysis block that leads the inside of the summary disappears too. |
| CompactSummary.UnclosedAnalysisIsDropped | crates/codegen/xai-chat-state/src/compaction_utils.rs:639-648 | A drafting block that is never closed is cut off up to the next summary, or to the end if only whitespace is before it; a text that is nothing else formats to nothing. |
| CompactSummary.UntaggedDraftIsDropped | crates/codegen/xai-chat-state/src/compaction_utils.rs:664-687 | A draft that leads the summary without an opening tag disappears up to and with the last `</analysis>`, as if it had never been there, unless it starts with a numbered section. |
| CompactSummary.NestedOpenerIsDropped | crates/codegen/xai-chat-state/src/compaction_utils.rs:672-686 | A second `<summary>` in front of the body is dropped. |
| CompactSummary.NumberedLeadIff | crates/codegen/xai-chat-state/src/compaction_utils.rs:674-680 | A section counts as numbered if and only if a digit follows its leading hashes, stars, dashes, quotes, spaces and tabs. |
| CompactSummary.PlainBodySurvives | crates/codegen/xai-chat-state/src/compaction_utils.rs:651-662 | A summary without drafting and wrapper of its own survives whole, numbered or not, neutralized and with its blank lines collapsed, between the prose around it. |
| CompactSummary.NumberedBodySurvives | crates/codegen/xai-chat-state/src/compaction_utils.rs:649-698 | A summary body that leads with a (decorated) number survives whole after `Summary:`, even if it quotes control tokens, and so does any tag-free prose before it, and behind it unless glued on. |
| CompactSummary.ErasingGivesTheBodyBack | crates/codegen/xai-chat-state/src/compaction_utils.rs:687-698 | Erasing the zero-width spaces gives that body back exactly, between that prose, if it had none and no triple newline. |
| WaitProtocol.StepKeepsInv | crates/codegen/ptyctl/src/session.rs:158-172 | What every step of feeder, resizers and waiters keeps: each grid change since a waiter's check is announced, about to be, or silent. |
| WaitProtocol.ParkedHasCheckedTheGrid | crates/codegen/ptyctl/src/wait.rs:97-128 | In every reachable state a parked waiter with no unseen generation and no bump outstanding has checked, and rejected, the current grid. |
| WaitProtocol.NoLostWakeup | crates/codegen/ptyctl/src/wait.rs:97-128 | In every reachable state a parked waiter that would accept the grid can wake, or a producer still owes it a bump. |
| WaitProtocol.SenderStaysGone | crates/codegen/ptyctl/src/session.rs:272-283 | Once the sender is gone no run brings it back or moves the generation: the resizer only holds it weakly. |
| WaitProtocol.EndedMeansGone | crates/codegen/ptyctl/src/wait.rs:117-126 | In every reachable state a waiter that was told the session is over finds the sender gone. |
| WaitProtocol.GoneSenderBoundsEveryRun | crates/codegen/ptyctl/src/wait.rs:97-128 | Once the sender is gone, in every run, whatever the other tasks do, a waiter takes at most five more steps. |
| WaitProtocol.GoneSenderBlocksNobody | crates/codegen/ptyctl/src/wait.rs:97-128 | And until it has left it can take its next step: at once, or as soon as the lock is free if it is about to check. |
| WaitProtocol.NoWaiterStays | crates/codegen/ptyctl/src/wait.rs:97-128 | In particular a run of at most eight steps, none of them the feeder's, lets it leave matched or ended. |
| WaitProtocol.AcceptedGridBoundsEveryRun | crates/codegen/ptyctl/src/wait.rs:97-128 | While the grid stays one that a waiter accepts, in every run it takes at most three more steps, and it leaves matched unless it times out or the session ends. |
| WaitProtocol.AcceptedGridBlocksNobody | crates/codegen/ptyctl/src/wait.rs:97-128 | In every reachable state such a waiter can take its next step as soon as no producer is announcing a change. |
| WaitProtocol.ProducersFinish | crates/codegen/ptyctl/src/session.rs:158-172 | And from every state at most four steps, none changing the grid, finish all that the producers are announcing. |
| WaitProtocol.AcceptedGridReleasesTheWaiter | crates/codegen/ptyctl/src/wait.rs:97-128 | In particular a run of at most seven steps takes such a parked waiter out: matched, or ended with the session over. |
| WaitProtocol.EndedHasSeenTheGridIff | crates/codegen/ptyctl/src/wait.rs:118-122 | A waiter that ends with the session has checked the current grid if and only if no silent resize has happened since and none is under way. |
| WaitProtocol.EndedCanMissAResize | crates/codegen/ptyctl/src/session.rs:272-283 | A run in which a waiter is told "ended" although the grid meets its condition. |
| RawTail.Tail.Push | crates/codegen/ptyctl/src/wait.rs:202-213 | After any pushes the tail holds the last 2048 bytes of everything pushed. |
| IndexManager.CoalescedEvents.Insert | crates/codegen/xai-codebase-graph/src/index_manager.rs:1545-1569 | The entry of one path changes by the merge rule and no other entry does. |
| IndexManager.CoalescedEvents.Add | crates/codegen/xai-codebase-graph/src/index_manager.rs:1531-1543 | Adding events leaves the coalescing of their paths in order, a rename counting as removal and creation. |
| IndexManager.AtomsInOrder | crates/codegen/xai-codebase-graph/src/index_manager.rs:1531-1543 | An event touches each of its paths in order; a rename removes its first path and then creates its second. |
| IndexManager.LastEventDecides | crates/codegen/xai-codebase-graph/src/index_manager.rs:1133-1196 | Event by event, the last event on a file decides: no entry after a removal, what the disk yields after any other, and without an event the entry stays. |
| IndexManager.CoalescedTracksLast | crates/codegen/xai-codebase-graph/src/index_manager.rs:1510-1569 | A pending entry says whether the last event removed the path; a missing one means no event, or a removal last. |
| IndexManager.IndexManager.ApplyCoalesced | crates/codegen/xai-codebase-graph/src/index_manager.rs:1133-1161 | Whatever the iteration order, each pending path is dealt with exactly once, by its pending kind. |
| IndexManager.EveryOrderAgreesIff | crates/codegen/xai-codebase-graph/src/index_manager.rs:1133-1161 | For every batch: in all orders the result equals event-by-event application if and only if for each file every pending spelling writes what its last event wrote, and an entry with none pending is one that event-by-event application leaves alone. |
| IndexManager.OrderAt | crates/codegen/xai-codebase-graph/src/index_manager.rs:1133-1161 | What an order leaves at a file: the write of some pending spelling of it, or without one what was there. |
| IndexManager.OnlyAddsStaleIff | crates/codegen/xai-codebase-graph/src/index_manager.rs:1133-1161 | For every batch: in all orders no entry of event-by-event application is lost or altered if and only if, where that writes an entry, every pending spelling writes the same. |
| IndexManager.OneSpellingAgreesIff | crates/codegen/xai-codebase-graph/src/index_manager.rs:1510-1569 | If a batch reports each file under one spelling, nothing is lost or altered, and all orders agree exactly if no cancelled path had been indexed. |
| IndexManager.ModifiedThenRemovedStays | crates/codegen/xai-codebase-graph/src/index_manager.rs:1512-1516 | An indexed file modified and then removed within a batch keeps its old entry. |
| IndexManager.TwoSpellingsDisagree | crates/codegen/xai-codebase-graph/src/index_manager.rs:1182-1186 | A file reported under two spellings of its path has two pending entries, and of two possible orders one indexes it and the other does not. |
| IndexManager.IndexManager.ProcessCommandCoalesced | crates/codegen/xai-codebase-graph/src/index_manager.rs:838-953 | A single event drains what has arrived behind it, any other command does not; index and replies are those of a log that deals with the commands received, each once and in order: blocks of file commands in bulk, in some order of their pending paths, every other command by itself. |
| IndexManager.IndexManager.ProcessBackgroundRefresh | crates/codegen/xai-codebase-graph/src/index_manager.rs:1100-1128 | Entry by entry: what the disk yields for the last supported stale path of the file; else nothing if it was reported deleted; else what was there. |
| IndexManager.StepMeans | crates/codegen/xai-codebase-graph/src/index_manager.rs:857-953 | What each command does to index and replies: a rebuild replaces the index, a refresh renews it entry by entry, a question is answered from the index as it is, a shutdown stops. |
| IndexManager.IndexManager.RunLoop | crates/codegen/xai-codebase-graph/src/index_manager.rs:797-829 | However commands arrive, such a log deals with the whole queue up to a shutdown. Every question is answered, in order and from the index as that leaves it: if every block is consistent from an index with at least the entries it would have had one command at a time, and if every block agrees exactly as then. |
| IndexManager.LogTracks | crates/codegen/xai-codebase-graph/src/index_manager.rs:832-862 | The same for every way to cut a queue into blocks and to order their paths. |
| IndexManager.OneSpellingLog | crates/codegen/xai-codebase-graph/src/index_manager.rs:1510-1569 | With one spelling per file every block is consistent, and all agree if and only if none cancels a path that is indexed at the time; so they do if no path is removed right after its creation or modification. |
| Interner.StringInterner.InternBytes | crates/codegen/xai-codebase-graph/src/interner.rs:119-144 | A known string gives its id and changes nothing; a new one is appended, start, length and id cut to their widths; within the widths that inserts it into the abstract list. |
| Interner.NewIdDenotesIff | crates/codegen/xai-codebase-graph/src/interner.rs:131-144 | The id of a new string denotes it if and only if it is shorter than 2^16 bytes and the bytes at the cut start are its own. |
| Interner.StringInterner.InternAll | crates/codegen/xai-codebase-graph/src/interner.rs:113-144 | As long as no string is longer than 65535 bytes and arena and ids stay within 32 bits, a run of calls is the run of abstract insertions, and every id it handed out denotes its string at the end. |
| Interner.StringInterner.GetBytesId | crates/codegen/xai-codebase-graph/src/interner.rs:157-168 | The bucket scan agrees with the abstract list, whatever the hash function. |
| Interner.StringInterner.GetBytes | crates/codegen/xai-codebase-graph/src/interner.rs:180-184 | An id denotes the string at its position in the abstract list. |
| Interner.StringInterner.FromParts | crates/codegen/xai-codebase-graph/src/interner.rs:286-303 | Arena and offsets determine the interner: rebuilding the buckets gives the same contents. |
| Interner.BucketsMean | crates/codegen/xai-codebase-graph/src/interner.rs:286-296 | A bucket holds exactly the ids whose strings have its hash. |
| Interner.IdsAreStable | crates/codegen/xai-codebase-graph/src/interner.rs:113-144 | In the run of abstract insertions that `InternAll` performs, an id never changes its meaning, and two insertions share an id if and only if their bytes are equal. |
| LineReader.LineBufferedRead.ReadLineCapped | crates/codegen/xai-acp-lib/src/line_reader.rs:140-177 | Whatever the chunk sizes, returns the next line, or an error exactly if that line is over the cap. |
| LineReader.LineBufferedRead.ReaderStep | crates/codegen/xai-acp-lib/src/line_reader.rs:70-86 | One round of the reader task queues a line, or the error, or ends; delivered, held, queued and unread bytes stay the source, and less is left to do. |
| LineReader.LineBufferedRead.PollRead | crates/codegen/xai-acp-lib/src/line_reader.rs:96-132 | Delivers a piece of one line; is pending only when whole lines have been delivered and the task has room to run; ends only with the whole source or behind the error; otherwise less is left to do. |
| LineReader.Serve | crates/codegen/xai-acp-lib/src/line_reader.rs:1-13 | Under every schedule and every read size the bytes delivered are a prefix of the source; at the end they are all of it if and only if no line exceeds the cap; and the end comes within three rounds per byte, and two more, in which task and reader both have a turn. |
| LineReader.LineShape | crates/codegen/xai-acp-lib/src/line_reader.rs:151-165 | A newline can only be the last byte of a line, and only the last line can lack it. |
| AcpTransport.AcpStdioTransport.SendRequest | apps/bridge/src/acp-stdio-transport.ts:52-79 | Without an agent the request is refused and nothing changes; else it is pending, timed and written under a new id. |
| AcpTransport.AcpStdioTransport.TimerFires | apps/bridge/src/acp-stdio-transport.ts:62-67 | A timer rejects its request if that is still pending. |
| AcpTransport.AcpStdioTransport.HandleLine | apps/bridge/src/acp-stdio-transport.ts:97-122 | A line settles the request with its id, reaches the handlers, or does nothing. |
| AcpTransport.AcpStdioTransport.DetachTransport | apps/bridge/src/acp-stdio-transport.ts:128-142 | Every pending request is rejected, in the order sent. |
| AcpTransport.AcpStdioTransport.AttachTo | apps/bridge/src/acp-stdio-transport.ts:23-30 | Attaching ends the previous attachment, rejecting what is pending, and keeps the numbering. |
| AcpTransport.EveryIdIsPendingOrSettledOnce | apps/bridge/src/acp-stdio-transport.ts:16-142 | In every run each id handed out is either pending or settled, exactly once, and its timer runs exactly while it is pending. |
| AcpTransport.IdsAreConsecutive | apps/bridge/src/acp-stdio-transport.ts:52-61 | The requests written are the accepted ones, numbered consecutively: no id is reused, not even across processes, and a refused request uses none. |
| AcpTransport.RequestEndsWithFirstSettling | apps/bridge/src/acp-stdio-transport.ts:52-142 | In every run a request ends with the first later response with its id, its own timeout or the end of the attachment, whatever else happens: rejected with the error of a response that has one, else resolved with its result. |
| AcpTransport.DetachRejectsInOrder | apps/bridge/src/acp-stdio-transport.ts:128-142 | When the attachment ends, exactly the pending requests are rejected, once each, in the order sent. |
| AcpTransport.AllSettledByDetach | apps/bridge/src/acp-stdio-transport.ts:23-30 | By the next detach or attach every request has settled once and nothing is pending. |
| AcpTransport.LineSettlesOnlyItsRequest | apps/bridge/src/acp-stdio-transport.ts:105-113 | A line settles exactly the pending request whose number it carries, and none if it names a method or its id is a string. |
| AcpTransport.HandlersGetEveryCall | apps/bridge/src/acp-stdio-transport.ts:115-121 | In every run the handlers receive exactly the peer's requests and notifications that arrive while they are set, each once and in order, and no response. |
| Hydration.LoadSession | apps/bridge/src/grodex-agent.ts:301-331 | The mapper's methods over all updates, and the final close, emit the replay's events. |
| Hydration.ReplayMapper.MapSessionUpdate | apps/bridge/src/grodex-agent.ts:611-636 | One update changes buffer, turn, count and events as the replay step says. |
| Hydration.ReplayMapper.FinalizeReplayAssistant | apps/bridge/src/grodex-agent.ts:186-197 | A non-blank buffer is emitted trimmed under the id of its turn and emptied; a blank one changes nothing. |
| Hydration.ChatHistoryToEvents | apps/bridge/src/session-history.ts:53-114 | The loop over the lines computes events and user turns. |
| Hydration.ChatSession.ApplyChatEvent | apps/web/src/useChatSession.ts:127-175 | One event changes messages, buffer and live id as the reducer step says. |
| Hydration.UpsertCurrent | apps/web/src/useChatSession.ts:47-60 | Upserting under the current turn's id replaces its bubble or appends one, and touches no earlier message. |
| Hydration.LiveChunksAccumulate | apps/web/src/useChatSession.ts:141-158 | The chunks of a live answer, whatever their number, accumulate in one live bubble behind all others, as long as its id is new. |
| Hydration.LiveAnswerSettles | apps/web/src/useChatSession.ts:127-175 | At its end the bubble is settled with the whole text, and the next answer starts empty under a new id. |
| Hydration.ReplayRebuildsIff | apps/bridge/src/grodex-agent.ts:611-636 | However the assistant's text is cut into chunks, the replay shows the transcript if and only if in no turn the assistant said nothing but whitespace, and otherwise one leftover bubble more for each; then all bubbles are settled; and it reports the number of user bubbles. |
| Hydration.ReportsUserBubbles | apps/bridge/src/grodex-agent.ts:301-331 | The number of user turns reported with the last event is the number of user bubbles shown; likewise for the history file. |
| Hydration.HistoryRebuilds | apps/bridge/src/session-history.ts:65-113 | Every history file shows exactly the transcript of its trimmed texts under its own noise filter, all bubbles settled, and reports the number of user bubbles. |
| Hydration.SeamTrims | apps/bridge/src/session-history.ts:105-108 | Trimming a turn as a whole and trimming each of its texts come to the same exactly if no whitespace separates two of them. |
| Hydration.HydrationsAgreeIff | apps/bridge/src/session-history.ts:49-113 | For the same conversation both paths report the same user turns if and only if no user text is a short system reminder, and show the same transcript if and only if besides no turn is blank and no whitespace separates two assistant texts of a turn. |
| Hydration.Utf16Counts | apps/bridge/src/session-history.ts:27-36 | The length that tells a short reminder counts characters beyond the basic plane twice. |
| UsageLedger.UsageLedger.RecordMainLoopCall | crates/codegen/xai-chat-state/src/usage.rs:114-124 | One call is folded into totals and its model and counted. |
| UsageLedger.UsageLedger.RecordSubagent | crates/codegen/xai-chat-state/src/usage.rs:127-134 | The child's entries are folded one by one, the call count untouched, incompleteness passed on. |
| UsageLedger.FoldEntriesExtends | crates/codegen/xai-chat-state/src/usage.rs:71-98 | In each of nine measures, including the optional cost, saturating at every entry comes to the same as adding exactly and cutting off once. |
| UsageLedger.RecordSession | crates/codegen/xai-grok-shell/src/agent/subagent/handle_request.rs:1775-1792 | A session records its calls and folds in the ledgers of its subagents as they finish. |
| UsageLedger.LedgerIsItsCalls | crates/codegen/xai-chat-state/src/usage.rs:110-146 | For every ledger of the program, whatever the tree of calls and subagents: totals and every model's entry are the exact sums of all calls in the tree, cut off once, in every measure; and the totals are the saturating sum over the models. |
| UsageLedger.LedgerIsItsReports | crates/codegen/xai-chat-state/src/usage.rs:43-63 | The same in what the calls themselves report: prompt, completion, cached and reasoning tokens, durations, positive costs and missing ones, each summed over the tree in its own measure. |
| UsageLedger.ModelsKeepTheirPlaces | crates/codegen/xai-chat-state/src/usage.rs:139-146 | A model keeps its place among the entries for ever; a new one comes last. |
| UsageLedger.TotalsAreTheSumOfModels | crates/codegen/xai-chat-state/src/usage.rs:140-146 | Folding the entries per model of any such ledger together, in any order, gives its totals. |
| UsageLedger.LedgerCountsCalls | crates/codegen/xai-chat-state/src/usage.rs:104-138 | A session's own calls alone are counted, and a ledger is incomplete if and only if something marked it or an incomplete subagent was folded in. |
| UsageLedger.ChildFoldIsReplay | crates/codegen/xai-chat-state/src/usage.rs:126-146 | Folding a child's ledger into a parent's equals recording all calls of the child's tree there in any order: same totals, same models, same main-loop count. |
| UsageLedger.CostIsPartialIff | crates/codegen/xai-chat-state/src/usage.rs:67-69 | The cost is partial if and only if some call of the tree reported a positive cost and some did not. |
| SegmentNames.FilenameRoundTrip | crates/codegen/xai-chat-state/src/compaction_transcript.rs:80-97 | Parsing a printed name gives the index back exactly for the indices of 64 bits. |
| SegmentNames.LabelShape | crates/codegen/xai-chat-state/src/compaction_transcript.rs:80-88 | A file name shows its index with at least three digits and no zero in front that it does not need. |
| SegmentNames.ParsesIff | crates/codegen/xai-chat-state/src/compaction_transcript.rs:90-97 | A name has an index if and only if it is digits with that value, possibly behind a plus sign, between prefix and suffix. |
| SegmentNames.AnyPaddingParses | crates/codegen/xai-chat-state/src/compaction_transcript.rs:90-97 | An index is read with any zero padding and with a plus sign. |
| SegmentNames.PathRoundTrip | crates/codegen/xai-chat-state/src/compaction_transcript.rs:120-141 | For every directory prefix, the file's path is classified as its segment. |
| SegmentNames.ClassifiesSegmentIff | crates/codegen/xai-chat-state/src/compaction_transcript.rs:118-141 | Splitting at the last occurrence finds a segment if and only if some split of the path shows one. |
| SegmentNames.ClassifiesDirIff | crates/codegen/xai-chat-state/src/compaction_transcript.rs:118-141 | A path is the directory if and only if, trailing slashes aside, its last component is the directory's name. |
| SegmentNames.ClassifiesIndexIff | crates/codegen/xai-chat-state/src/compaction_transcript.rs:118-141 | A path is the index if and only if it ends with the directory's name, a slash and the name of the index. |
| SegmentDocument.RenderSegmentMd | crates/codegen/xai-chat-state/src/compaction_transcript.rs:466-507 | The loop over turns computes preamble, kept turns and notice; no turns at the lowest detail. |
| SegmentDocument.DocumentKeepsLongestFront | crates/codegen/xai-chat-state/src/compaction_transcript.rs:484-506 | Kept is the longest front of whole turns within the budget; behind it stands the notice counting the rest, or nothing. |
| SegmentDocument.DocumentHoldsTurns | crates/codegen/xai-chat-state/src/compaction_transcript.rs:484-499 | Every kept turn stands unaltered at its place behind the preamble, in order, a line break before each but the first. |
| SegmentDocument.NoticeIsFilledIn | crates/codegen/xai-chat-state/src/compaction_transcript.rs:500-504 | Replacing the two placeholders one after the other gives the notice with the cap and the number left out. |
| SegmentDocument.DocumentSize | crates/codegen/xai-chat-state/src/compaction_transcript.rs:479-506 | If the reserve fits, the document exceeds the cap by at most one byte per kept turn. |
| SegmentDocument.DocumentLength | crates/codegen/xai-chat-state/src/compaction_transcript.rs:478-506 | The exact size of every document. |
| SegmentDocument.WithinCapIff | crates/codegen/xai-chat-state/src/compaction_transcript.rs:479-482 | For every preamble and all turns, exactly when the document is within the cap: with all turns kept, with some left out, and without room for the reserve. |
| SegmentDocument.CapIsExceeded | crates/codegen/xai-chat-state/src/compaction_transcript.rs:479-482 | Turns of 19 to 40 bytes, enough of them to fill a budget of at least 4680 bytes, always exceed the cap. |
| SegmentDocument.UserTurnsExceedTheCap | crates/codegen/xai-chat-state/src/compaction_transcript.rs:427-429 | In particular enough user turns at the lowest detail that prints turns, behind any preamble of up to 500,000 bytes. |

## Left out

- Pseudo-terminal, child processes, network, files, caches, tree-sitter and the terminal grid: the grid is an opaque value, the disk a fixed function from path to symbols, a query an arbitrary function of the index, the hash and the token estimate arbitrary functions.
- `wait_stable` and all wall-clock timing: a timeout may fire at any time.
- `is_real_user_turn` and query extraction: an arbitrary predicate that accepts only user items.
- Item fields that no modelled function reads (model name, reasoning content, prefix caches).
- Integer widths of token sums, lengths and the generation counter in the conversation, wait and reader models: unbounded there; the interner and the ledger model theirs.
- I/O errors of the line reader's source and a dropped receiver; the sender's own slot of the channel is part of its capacity.
- JSON parsing: lines arrive parsed. A line holding JSON `null` makes the source throw; it is not modelled. Ids that are fractions match nothing, like any number never sent.
- Timestamps of chat events, and lone surrogates in JavaScript strings.
- UI state of the reducer other than messages, assistant buffer and live id (busy flag, tools, subagents, status); live prompts, permissions and subagents.
- Stats block, turn rendering, keywords and index rows of a segment: the preamble and the rendering of a turn are arbitrary strings.
- Aliases in the index, and non-UTF-8 paths; the statistics command's count of processed updates, which coalescing lowers.
- `summary_before_recent`: its carrier is not compiled into the source.
- HistoryLoops.History.DedupDuplicateToolResults: the list of positions to remove, sorted and reversed in the source, is a set walked from the back.
- WaitProtocol.AcceptedGridBlocksNobody: that a scheduler lets the producers finish, and grants the lock to a waiter that asks for it, is fairness and not modelled.
- UsageLedger.LedgerIsItsCalls: ledgers of the program only. An outside caller could hand `record_subagent` entries with negative costs; no code of the repository builds any, and the model says nothing of them.
