# Verified models of attest_tag's decision kernels

attest_tag is a chat bot with an admin console. This project models the parts of it that decide things, as
against the parts that carry things, and proves what they are for:

- the branch-rule editor: ops on a first-match list of rules, the card that shows what they did, the card that
  shows what inheriting would do, and the warnings about rules that can never match (`BranchRules`, `RuleCards`,
  `Shadows`, over the glob matcher in `Glob`);
- the tree of review settings, where the nearest level with a list of its own wins: who a change reaches, and
  which staged card it makes stale, and the sentences by which the cards of one answer say so (`ReviewTree`,
  `Proposals`, `Notes`, `StaleNotes`, `MisleadingNames`);
- one turn of the agent against a model endpoint that may reply anything (`AgentTurn`), and the resuming of a
  streamed answer (`StreamTail`);
- access requests: which tier is asked (`Approvers`), the life of one request under any interleaving of presses,
  withdrawals, sweeps and deliveries (`AccessRequests`), and the replay of its pinned plan (`GrantReplay`) over the
  connections that cover a URL (`ProxyMatch`, `Urls`);
- the two throttles, each with a sweep that must not be seen and a true sliding bound (`LoginFails`,
  `RateWindow`);
- console roles as a transition system (`ConsoleRoles`);
- the canonical request of AWS Signature Version 4, and exactly which requests share one (`AwsEscape`,
  `AwsQuery`, `SigV4`).

`Lists`, `Text`, `Times`, `Orders` and `Joining` hold what these share. Code that updates state step by step is a
class or a loop proved against a specification function; the theorems are about that function. Code that computes
a value is a function. Everything the program does not decide (model replies, clocks, tool results, HTTP answers,
stored settings read back, token resolution) is a parameter that may be anything.

`dafny verify dfyconfig.toml` checks the whole project.

## What turned out to be false, and when it is true

- The editor refuses a rule without a branch above the fallback because only the fallback is to match every pull
  request, but accepts one whose head is `**`. `Glob.UniversalExactly` says exactly which globs match everything
  and `BranchRules.OnlyFallbackCatchesAll` exactly when the fallback is the only rule that does.
- A card's word that it goes stale after another is a sentence in its note, searched for and cut out as text, and
  the sentence about one level may end in the sentence about another. `StaleNotes.NotesRightExactly`: the notes of
  every answer are right exactly when, of any two such levels, whoever reads its rules through one (or, where the
  one sentence follows a space in the other, through either) reads them through both, and neither holds a copy of
  the list above it. `MisleadingNames.NamedLikeACard` is a group whose name reads as the card for a repository,
  `Namesakes` two groups of one name, `UnsavedReadsOn` one whose name goes on where the program's own words stop.
- A repository counted as following a level runs that level's new list unless a level between them holds
  settings that do not parse: `ReviewTree.BlastRadius`; `UnreadableBetween` is such a tree.
- A stop asked for elsewhere is no ending of its own: the loop is left as if it had run out of rounds, and the turn
  says it made too many tool calls. `AgentTurn.Call.Turn` says exactly when a turn ends so, and
  `AgentTurn.StopReadsAsCap` is a turn with rounds left and tools offered that does.
- A tier may be stored with a negative rank, for which a member's rank reads as none. Whoever a request is sent to
  passes the tests on ranks exactly when they are in some tier of rank 0 or more: `AccessRequests.AskedPassExactly`;
  `AskedInVain` is a request that nobody it was sent to can answer.
- A lock's deadline moves earlier under a failure exactly when it has already passed: `LoginFails.DeadlineExactly`.
- An approved read pinned to the requester's own account, which they have not signed in to, passes its check and
  goes out on a shared connection; a step without a method is checked under one method and sent under another.
  `GrantReplay.PinHeldExactly` says of every request which connection it goes out on; `PinHeldWhenUsable` says that
  with a method a pinned request that passed its check goes out on its own connection exactly when the requester can
  use that one, spaces around its URL or none; `PinnedReadStrays` and `NoMethodStrays` are the inputs. That a URL is
  checked as written and sent trimmed makes no difference (`ProxyMatch.PaddingUnseen`) unless a host was saved with a
  space at its end, which one typed with a no-break space before a slash is: `SpacedHostStrays`.
- A request answered without being taken can still come to read `failed`, if its cards turn out undeliverable
  afterwards, because that write asks for no status: `AccessRequests.AnswerStandsExactly`.
- Saving a role asks no last-holder guard: `ConsoleRoles.SaveKeepsExactly` says when a save leaves a permission
  held and `SaveTakesTheLast` shows one that does not. A role row edited by hand can hold a padded name that a
  save trims into a permission: `ConsoleRoles.SaveWithinExactly`, `PaddedNameWidens`.
- The per-minute ceiling admits 479 requests in a sliding minute at the most, one fewer than two full windows.

## Model

| member | source | states |
|---|---|---|
| `StreamTail.StreamTail` | internal/app/agent.go:1342-1380 | What is still to be written is a suffix of the answer; if what was written is the answer's beginning but for whitespace, the two together are the answer but for whitespace, and nothing of the answer's ink is left out or said twice; a literal beginning is continued exactly; otherwise the tail is the whole answer |
| `StreamTail.LiteralPrefixSqueezes` | internal/app/agent.go:1349-1358 | A literal beginning is a beginning but for whitespace, so the second test never misses what the first finds |
| `Glob.Match` | internal/review/glob.go:25-68 | The row-by-row matching over two buffers answers what the pattern means: some way of splitting the name among the pattern's pieces |
| `Glob.FillRow` | internal/review/glob.go:40-66 | One piece's row of the matching, filled in place from the row after it |
| `Glob.Tokenize` | internal/review/glob.go:95-125 | The scan cuts a pattern into literals, `?`, `*`, `**` and `**/` as the recursive reading does |
| `Glob.UniversalExactly` | internal/review/glob.go:25-125 | A glob matches every name exactly when it is empty or is `**/`s followed by `**` or `*`, which three names already decide |
| `Glob.ProbesDecide` | internal/review/glob.go:25-125 | A pattern whose stars are followed by literals only, if it matches the empty name and `a`, is one that matches everything or a lone `*`, which the third of the names above tells apart |
| `BranchRules.MatchRule` | internal/review/rules.go:84-101 | The index and rule found are those of the first rule that is no label rule and whose base and head globs both match, and none is found exactly when there is none |
| `BranchRules.BranchRuleOps.Apply` | internal/app/assistant_review.go:2477-2561 | The in-place edit of the slots and of the removed list is what the op makes of them, and a refused op changes nothing |
| `BranchRules.ApplyBranchRuleOps` | internal/app/assistant_review.go:2461-2475 | Each op reads its numbers in the list the op before it left; the first refused one refuses the call |
| `BranchRules.AcceptedKeeps` | internal/app/assistant_review.go:2457-2561 | Every accepted run of ops leaves the fallback last and the only rule without a branch, the length within its bound, the label rules the same in content and order, every start rule either kept in one slot or recorded as removed, and the rules no move named in their order |
| `BranchRules.StartKept` | internal/app/assistant_review.go:2461-2466 | A stored list starts out so |
| `BranchRules.AddThenRemove` | internal/app/assistant_review.go:2494-2536 | An added rule sits at the number it was sent to and removing that number undoes the add |
| `BranchRules.EditTouchesOne` | internal/app/assistant_review.go:2507-2524 | An edit changes one rule, and of it only branches, types and strictness; it neither makes nor unmakes a fallback |
| `BranchRules.MoveLands` | internal/app/assistant_review.go:2537-2554 | A moved rule sits at the number it was sent to right after its op, and the others keep their order |
| `BranchRules.MoveBack` | internal/app/assistant_review.go:2537-2554 | Moving the rule back to the number it had restores the list |
| `BranchRules.CatchesAllExactly` | internal/review/rules.go:51-55 | A branch rule catches every pull request exactly when both its globs match every name |
| `BranchRules.OnlyFallbackCatchesAll` | internal/app/assistant_review.go:2457-2461 | The fallback is the only rule that matches every pull request exactly when no branch rule above it has two globs that match everything |
| `BranchRules.StarStarIsAccepted` | internal/app/assistant_review.go:2564-2583 | One accepted add puts a rule that matches every pull request above the fallback |
| `Shadows.Shadows` | internal/app/assistant_review.go:2756-2778 | The list warns that rule j can never match, naming rule i, exactly when i is the first earlier branch rule that covers j and the call touched one of the two; later rules in order |
| `Shadows.WarnedNeverFirst` | internal/app/assistant_review.go:2756-2778 | A rule warned about is no pull request's first match |
| `Shadows.WarnedRulesAreDead` | internal/app/assistant_review.go:2756-2778 | Removing any set of the rules warned about changes the rule of no pull request |
| `Shadows.ChosenIsFirstMatch` | internal/review/rules.go:84-101 | The rule a list chooses is its first match |
| `Shadows.UntouchedListIsSilent` | internal/app/assistant_review.go:2451-2455 | A list no op touched is warned about nowhere |
| `RuleCards.KeptRows` | internal/app/assistant_review.go:2640-2661 | The rows of the final list, numbered and marked, with the counts of each mark |
| `RuleCards.PutBack` | internal/app/assistant_review.go:2662-2668 | Inserting the removed rules one by one, in the order of their places, lays the list out as a walk down the places does |
| `RuleCards.Card` | internal/app/assistant_review.go:2639-2680 | The card's loop draws exactly that list and counts |
| `RuleCards.RoomAbove` | internal/app/assistant_review.go:2662-2668 | There are always enough rows above a removed rule to draw it at its place: the bound on the insertion point never bites |
| `RuleCards.CardIsFaithful` | internal/app/assistant_review.go:2634-2680 | Struck rows left out, the card is the final list numbered 1 to n; a struck row stands at exactly the place its rule had and shows that rule; those places are exactly the removed ones |
| `RuleCards.SummaryBalances` | internal/app/assistant_review.go:2641-2680 | Start length plus added is final length plus removed |
| `RuleCards.EditsShowStartOrder` | internal/app/assistant_review.go:2634-2638 | Of every accepted call that only edits and removes, whatever list it starts from, the card shows the start list in its own order: row k is start rule k, struck out, changed or as it was |
| `RuleCards.MatchUp` | internal/app/assistant_review.go:2685-2697 | The rules of the inherited list in order, each marked as one the level has exactly when an unused equal one is left |
| `RuleCards.BranchRulesInherited` | internal/app/assistant_review.go:2685-2705 | The "=" rows are, as a multiset, the intersection of the two lists; "=" and "-" together are the level's own list; without the "-" rows the inherited list is left in order |
| `RuleCards.InheritedIsFaithful` | internal/app/assistant_review.go:2682-2705 | The same of any list so drawn: a greatest matching, one rule to one rule |
| `RuleCards.InheritedGone` | internal/app/assistant_review.go:2698-2703 | A rule struck out is drawn at the place it had in the level's own list |
| `ReviewTree.SourceIsResolved` | internal/app/assistant_focus.go:323-333 | The level a chain's rules are said to come from is the one whose list resolving the chain gives, and none is named exactly when the built-in list is run |
| `ReviewTree.ChainNests` | internal/app/review_api.go:264-274 | The chain of a level on the way is the beginning of the chain it is on |
| `ReviewTree.Followers` | internal/app/assistant_review.go:884-912 | The two counts are the numbers of live repositories under the level that read their rules where it does, those without a row included, and of those that do not |
| `ReviewTree.FollowersAddUp` | internal/app/assistant_review.go:880-912 | The two counts of rows add up to the live repositories under the level |
| `ReviewTree.BlastRadius` | internal/app/assistant_review.go:880-912 | Saving or dropping a level's list gives every repository counted as following exactly the level's new list, exactly when no level between does not parse, and leaves every one counted as having its own exactly what it ran |
| `ReviewTree.RowlessFollows` | internal/app/review_api.go:276-281 | A repository without a row runs what its connection runs, and still does after any level is saved |
| `ReviewTree.ChangesIsReResolving` | internal/app/assistant_review.go:2244-2258 | A change at m is said to change what n runs exactly when saving it and resolving the tree again gives n another list |
| `ReviewTree.ChangesExactly` | internal/app/assistant_review.go:2244-2258 | Read off the tree: exactly when no level below m on the way to n holds a list and m then runs another list than it does |
| `ReviewTree.UnreadableBetween` | internal/app/assistant_review.go:884-912 | A repository counted as following that does not get the new list |
| `Proposals.ConsoleCall.ProposalIDFor` | internal/app/assistant.go:355-366 | The id a card is to have: that of the card on the same thing, if one is staged |
| `Proposals.ConsoleCall.Stage` | internal/app/assistant.go:325-353 | Staging replaces the card on the same thing in its place or adds one at the end; a card whose step is not allowed or that does not keep the id is refused and nothing changes |
| `Proposals.Note` | internal/app/assistant_review.go:2111-2127 | One earlier card's note gains the sentence about the new card's level at its end, or loses it wherever it stands, or is left alone, as the search for it and re-resolving say |
| `Proposals.ConsoleCall.NoteOthers` | internal/app/assistant_review.go:2110-2128 | So are all of them, in place, and the sentences about the levels that make the new card stale are collected in order |
| `Proposals.ConsoleCall.StageBranchRules` | internal/app/assistant_review.go:2106-2148 | The whole step on the staged cards, its refusals included |
| `Proposals.RunKeeps` | internal/app/assistant.go:312-366 | Over any run of calls, kind and key stay unique, every card that waits for another waits for one that is staged, and cards keep their places and replaced ones their ids |
| `Notes.SayHolds` | internal/app/assistant_review.go:2121-2127 | One sentence is found in another exactly when the other ends in all of it |
| `Notes.Found` | internal/app/assistant_review.go:2122 | Searching a note put together of other words and sentences finds a sentence exactly when one of them, with the words before it, ends as that sentence does |
| `Notes.CutText` | internal/app/assistant_review.go:2125-2127 | Where only its own sentences end so, cutting a sentence out of the text takes them and nothing else |
| `Notes.NamesArePlain` | internal/app/store_review.go:721-727 | No name short enough for a group or a connection can end a sentence itself |
| `Notes.SpacelessIsPlain` | internal/app/store_review.go:712-719 | Nor can a repository's |
| `StaleNotes.NoteStaysRight` | internal/app/assistant_review.go:2121-2127 | A note right of every staged level is right of them all after the next card, whatever other words it holds |
| `StaleNotes.NewNoteRight` | internal/app/assistant_review.go:2118-2129 | So is the note the new card starts with |
| `StaleNotes.NotesStayRight` | internal/app/assistant_review.go:2106-2129 | Where the names keep sentences apart, every call, accepted, refused before a card is touched or refused when its card is staged, leaves each note with the sentence about another level exactly when confirming that one first changes what it runs |
| `StaleNotes.RunKeepsNotes` | internal/app/assistant_review.go:2106-2129 | So does every run of calls |
| `StaleNotes.MayAndMust` | internal/app/assistant_review.go:2236-2258 | Some card at a level makes another stale exactly when that one reads its rules through it; every card that can be drawn there does exactly when also its own list is not the one it would inherit |
| `StaleNotes.CutOutOfAnother` | internal/app/assistant_review.go:2125-2127 | Where one sentence ends in another, the second card takes back the word on the first |
| `StaleNotes.CutWithAnother` | internal/app/assistant_review.go:2121-2127 | Or a word found inside another is not said again and goes when that one does |
| `StaleNotes.ReadsOn` | internal/app/assistant_review.go:2121-2127 | Or other words and one sentence read together as another |
| `StaleNotes.NotesRightExactly` | internal/app/assistant_review.go:2099-2129 | The notes of every answer are right exactly when the tree and the names are clear: a condition on levels, lists and names alone |
| `MisleadingNames.NamedLikeACard` | internal/app/assistant_review.go:2374-2385 | All names differ and the notes go wrong: a group whose name reads as the card for a repository |
| `MisleadingNames.Namesakes` | internal/app/assistant_review.go:484-489 | Two groups whose names read alike |
| `MisleadingNames.UnsavedReadsOn` | internal/app/assistant_review.go:2059-2104 | After all that a card at a group over the built-in default says by itself (its own copy, the repository that follows, the edits on screen), the sentence about its connection reads as one about another group |
| `MisleadingNames.SampleFollowers` | internal/app/assistant_review.go:884-912 | What that card counts: one repository below follows, none has a list of its own, none is without a row |
| `AgentTurn.RoundsFor` | internal/app/routing.go:202-209 | A turn has at least one round and at most 200 |
| `AgentTurn.EveryCallAnswered` | internal/app/agent.go:1297-1324 | In a transcript as it is sent each tool call is followed, in its place, by the one message with its id |
| `AgentTurn.RepeatGuard.Count` | internal/app/repeat_guard.go:89-99 | How often this call has been made |
| `AgentTurn.RepeatGuard.Progressed` | internal/app/repeat_guard.go:101-114 | Whether a call of this shape was told something it had not been told before |
| `AgentTurn.RepeatGuard.EndRound` | internal/app/repeat_guard.go:127-135 | How many rounds in a row told nothing new |
| `AgentTurn.RepeatGuard.Skip` | internal/app/repeat_guard.go:140-145 | A skip starts the count over and uses one up |
| `AgentTurn.SpentAddsUp` | internal/app/agent.go:1022-1030 | What is spent over two stretches of a turn is the sum of both, wherever it is cut |
| `AgentTurn.SentGrows` | internal/app/agent.go:1297-1324 | A later completion is sent all an earlier one was, and in a later round the calls that one made |
| `AgentTurn.Call.Chat` | internal/app/agent.go:1173-1177 | Each completion that comes back is booked at once, and none is booked twice |
| `AgentTurn.Call.RunTool` | internal/app/agent.go:1403-1436 | A tool runs exactly when there is one of that name and the thread's budget is not used up |
| `AgentTurn.Call.Answer` | internal/app/agent.go:1302-1322 | A call runs the first three times it is made and is refused after that; only a first run can count as progress |
| `AgentTurn.Call.RunCalls` | internal/app/agent.go:1297-1325 | The assistant's message and one answer to each call, in order, added to the transcript |
| `AgentTurn.Call.Land` | internal/app/agent.go:1133-1172 | A round lands exactly when tools are offered and the rounds, the clock or the spend ran out, or the turn repeats itself and has no item left to skip to |
| `AgentTurn.Call.Write` | internal/app/agent.go:1197-1233 | A round that landed ends the turn: the calls it came back with are dropped, and asked again at most once |
| `AgentTurn.Call.Search` | internal/app/agent.go:1185-1325 | A round that did not land runs a tool for a model that would not, repairs one call written as text, answers, or runs the calls |
| `AgentTurn.Call.Turn` | internal/app/agent.go:1048-1330 | Whatever the model replies: at most one completion a round and one more, which only a landing makes; nothing runs or is asked for after a landing; the answer is what the last completion said; a turn ends as one that ran out of rounds exactly when a stop is read before a round or every round carried on, the last of which then offered no tool, and never after a landing; every completion is sent a paired transcript that only grows; no call the model itself makes runs more than three times; the thread stays within its tool budget; what is booked is what came back |
| `AgentTurn.StopReadsAsCap` | internal/app/agent.go:1117-1125 | A turn stopped before its second round, with rounds left and tools offered in all, ends as one that made too many tool calls |
| `AgentTurn.Call.Run` | internal/app/agent.go:970-1020 | What a turn spent is recorded once, on every way out, and only if something came back |
| `Approvers.TierHasRepo` | internal/app/approvers.go:229-242 | Whether a tier's own connections include the repository; never for no repository |
| `Approvers.Covers` | internal/app/approvers.go:200-227 | Whether a tier can run every call |
| `Approvers.RouteTo` | internal/app/approvers.go:247-273 | The route is sound and as low as it can be: it covers every call and asks members who may answer; with a usable tag it is the least tier tagged, with none the least tier that has somebody to ask, and all of them are asked; there is none only when no covering tier has anybody |
| `Approvers.ChosenIsRouted` | internal/app/approvers.go:156-273 | The same of the search as a function of the tiers, in whatever order they are stored |
| `Approvers.RouteExactly` | internal/app/approvers.go:244-273 | There is a route exactly when some covering tier has somebody who may answer |
| `Approvers.StrayTagChangesNothing` | internal/app/approvers.go:258-266 | An id that no covering tier's answerable members include changes nothing, wherever it is written |
| `Approvers.RankOf` | internal/app/approvers.go:289-298 | The highest rank of a tier the person is in, if that is 0 or more; -1 exactly when they are in none of rank 0 or more |
| `Urls.ReadPadded` | internal/app/access_requests.go:655 | A URL read with spaces around it has no host, a host that ends in a space, or the host it has without them and the path with the spaces after it |
| `ProxyMatch.CoveringConns` | internal/app/proxy.go:789-872 | The connections that cover a URL under a method, in the order they are tried, and whether the URL is refused |
| `ProxyMatch.CoverExactly` | internal/app/proxy.go:770-861 | Without dot segments the list holds exactly the connections whose host, prefix and method all fit, the longest claim first and of two alike the asker's own account |
| `Orders.SortStable` | internal/app/proxy.go:853-859 | What ties keeps the order it came in, which is by rank |
| `ProxyMatch.PaddingUnseen` | internal/app/proxy.go:808-833 | The list for a URL as it is written, if there is one, is the list for it trimmed |
| `GrantReplay.Replay` | internal/app/access_requests.go:644-683 | What went through is a prefix of the plan; the replay is clean exactly when that is all of it; it stops at the first step that did not go, says how that one ended, and attempts none after it |
| `GrantReplay.StandIn` | internal/app/proxy.go:1011-1027 | The first shared connection that may answer for a personal one, if there is one |
| `GrantReplay.PinHeldExactly` | internal/app/proxy.go:996-1028 | A request that goes out goes out on the connection recorded for it exactly when that is the first of the connections that cover it as it is sent, if the requester can use that one, and the first that may stand in for it if not |
| `GrantReplay.CheckedIsSent` | internal/app/access_requests.go:651-666 | What a pinned step with a method passed its check against is what its request is matched against |
| `GrantReplay.PinHeldWhenUsable` | internal/app/access_requests.go:651-666 | A pinned request with a method that passed its check went out on the connection recorded for it exactly when the requester can use that one |
| `GrantReplay.PinnedWriteHeld` | internal/app/access_requests.go:651-666 | A write goes out on the first connection that covers it or not at all; one that is pinned and passed its check, on the one recorded |
| `GrantReplay.ReplayKeepsPins` | internal/app/access_requests.go:646-681 | Both over everything a replay sent |
| `GrantReplay.PinnedReadStrays` | internal/app/proxy.go:1006-1028 | A read on which the pin fails |
| `GrantReplay.NoMethodStrays` | internal/app/proxy.go:947-950 | A step without a method on which the pin fails |
| `GrantReplay.SpacedHostStrays` | internal/app/admin_api.go:2766-2773 | With a host saved with a space at its end, a write on which the pin fails |
| `AccessRequests.AskedPassExactly` | internal/app/access_requests.go:522-534 | Whoever a request was routed to passes the tests on ranks exactly when they are in some tier of rank 0 or more: always, if the tier it went to is one |
| `AccessRequests.AskedInVain` | internal/app/admin_api.go:2265-2318 | A request routed to a tier of negative rank, none of whose members may answer |
| `AccessRequests.AccessRow.Take` | internal/app/store_access.go:103-121 | A request is taken only if it is pending, not expired, and not the presser's own unless that is allowed; the row is left as the interleavings below have it |
| `AccessRequests.AccessRow.Deny` | internal/app/store_access.go:124-135 | A pending row is denied by the transition the interleavings take, and no other row is touched |
| `AccessRequests.AccessRow.Claim` | internal/app/store_access.go:169-204 | A withdrawal or an expiry moves a pending row, by the transition the interleavings take, and no other |
| `AccessRequests.AccessRow.Finish` | internal/app/store_access.go:143-147 | The one transition that asks for no status: the end of a grant and of a request that could not be delivered |
| `AccessRequests.NextSound` | internal/app/access_requests.go:554-608 | Each event keeps the whole account of a request |
| `AccessRequests.EveryInterleavingIsSafe` | internal/app/access_requests.go:554-725 | Under every interleaving at most one settlement takes effect and at most one replay starts; calls run only for the one approver who took the request, was let to and took it in time; they run in the plan's order with nothing after one that did not go; an asker who approved is written down as such; `executed` means the whole plan ran |
| `AccessRequests.HistoryGrows` | internal/app/access_requests.go:554-725 | No settlement and no attempt is ever taken back |
| `AccessRequests.NothingAfter` | internal/app/access_requests.go:670-677 | After a call that did not go, or an answer that was not a taking, nothing is attempted |
| `AccessRequests.AnswerStandsExactly` | internal/app/access_requests.go:319-323 | A request answered without being taken keeps that answer exactly when it is not given up as undeliverable later |
| `AccessRequests.DriveIsReplay` | internal/app/access_requests.go:646-681 | The replay's events end well exactly when every call went, as the replay itself does |
| `LoginFails.Fails.Locked` | internal/app/auth_slack.go:811-822 | The time left of a lock in force, and none otherwise |
| `LoginFails.Fails.Fail` | internal/app/auth_slack.go:824-844 | What a failure makes of the table, its sweep included |
| `LoginFails.Fails.Sweep` | internal/app/auth_slack.go:827-833 | Exactly the runs that are over and lock nothing are dropped |
| `LoginFails.Fails.Reset` | internal/app/auth_slack.go:846-852 | Exactly the keys named are forgotten |
| `LoginFails.AttemptBounded` | internal/app/auth_slack.go:811-844 | One more attempt, made as "refused if locked, otherwise a failure", keeps the account that bounds them |
| `LoginFails.AsAlone` | internal/app/auth_slack.go:811-852 | In the swept table, among other keys, a key's attempts fare as they do alone |
| `LoginFails.LockoutBound` | internal/app/auth_slack.go:791-844 | Over any run of attempts on any keys, sweeps and resets of other keys, at most fifteen failures on a key get through in any half-open fifteen minutes |
| `LoginFails.LockoutBoundIsMet` | internal/app/auth_slack.go:791-844 | Fifteen do |
| `LoginFails.DeadlineExactly` | internal/app/auth_slack.go:834-843 | A failure moves a deadline earlier exactly when it has already passed |
| `LoginFails.LockHolds` | internal/app/auth_slack.go:811-844 | Until its deadline only a reset of the key itself ends a lock or brings its deadline forward |
| `LoginFails.SweepUnseen` | internal/app/auth_slack.go:827-833 | Over any run of calls the swept table answers as one never swept |
| `RateWindow.PerMinute.AllowPerMinute` | internal/app/api_keys.go:106-129 | Whether a request fits its key's window, how long a refused caller waits, and the table left |
| `RateWindow.PerMinute.Sweep` | internal/app/api_keys.go:112-120 | Exactly the windows that are over are dropped |
| `RateWindow.RequestBounded` | internal/app/api_keys.go:106-129 | One more request keeps the account that bounds them |
| `RateWindow.AsAlone` | internal/app/api_keys.go:106-129 | In the swept table, among other keys, a key's requests fare as they do alone |
| `RateWindow.MinuteBound` | internal/app/api_keys.go:83-129 | Over any run of requests on any keys and its sweeps, any half-open minute admits at most 479 of a key's |
| `RateWindow.MinuteBoundIsMet` | internal/app/api_keys.go:83-129 | One admits 479 |
| `RateWindow.RetryIsEnough` | internal/app/api_keys.go:126-128 | A refused caller alone on its key is admitted exactly when its window is over, and is told to wait at least that long and at most a second more |
| `RateWindow.SweepUnseen` | internal/app/api_keys.go:111-120 | Over any run of requests the swept table answers as one never swept |
| `ConsoleRoles.SanitizePermissions` | internal/app/console_roles.go:146-155 | The known names among those given, trimmed, each once |
| `ConsoleRoles.SanitizedExactly` | internal/app/console_roles.go:146-155 | A name is kept exactly when it is known and one given trims to it |
| `ConsoleRoles.Console.CountMembersHolding` | internal/app/store_identity.go:580-610 | The number of members but one whose role grants a permission |
| `ConsoleRoles.Console.CountMembersHoldingExcludingRole` | internal/app/store_identity.go:911-940 | The number of members by any other role who hold a permission |
| `ConsoleRoles.Console.LastHolderGuard` | internal/app/auth_password.go:926-946 | Passes exactly when every critical permission the change takes is held by somebody else |
| `ConsoleRoles.Console.LastHolderGuardForRole` | internal/app/auth_password.go:948-972 | Passes exactly when every critical permission the role grants is held by somebody by another role |
| `ConsoleRoles.Console.PutRole` | internal/app/admin_api.go:2000-2035 | The role-change route: its refusals in order, and the membership it writes |
| `ConsoleRoles.Console.DeleteMember` | internal/app/admin_api.go:2037-2079 | The removal route |
| `ConsoleRoles.Console.PostRole` | internal/app/admin_api.go:2105-2148 | The role-save route, an upsert |
| `ConsoleRoles.Console.RemoveRole` | internal/app/admin_api.go:2150-2175 | The role-deletion route |
| `ConsoleRoles.NobodyAmplifies` | internal/app/admin_api.go:2000-2175 | However a group of members takes turns at the four steps, nobody ends up with a permission that neither they nor any of the group held at the start |
| `ConsoleRoles.TheBetterHeldAreSpared` | internal/app/admin_api.go:2045-2059 | A member who holds one permission the whole group lacked keeps role and permissions exactly, whatever the group does |
| `ConsoleRoles.SaveWithinExactly` | internal/app/store_console.go:56-63 | A save stays within what the caller holds exactly when trimming the names asked for does |
| `ConsoleRoles.PaddedNameWidens` | internal/app/admin_api.go:2121-2144 | With a hand-edited row a save can widen |
| `ConsoleRoles.SaveKeepsExactly` | internal/app/admin_api.go:2105-2148 | An accepted save keeps a permission held exactly when it grants it or somebody has it by another role |
| `ConsoleRoles.SaveTakesTheLast` | internal/app/admin_api.go:2105-2148 | A save that takes user management from its last holder |
| `ConsoleRoles.GuardedStepKeeps` | internal/app/auth_password.go:926-972 | None of the other three steps takes a critical permission from its last holder |
| `ConsoleRoles.CriticalStaysHeld` | internal/app/console_roles.go:185-191 | Over any run of all four steps a critical permission stays held so long as no save takes it from everybody |
| `ConsoleRoles.GuardedRunKeepsCritical` | internal/app/console_roles.go:185-191 | Over any run of role changes, removals and deletions every critical permission held at the start stays held |
| `AwsEscape.EscapeIsBytewise` | internal/app/aws_sigv4.go:193-198 | The two replacements make RFC 3986's escaping, byte for byte; the second never finds anything |
| `AwsEscape.EscapeRoundTrip` | internal/app/aws_sigv4.go:193-198 | Percent-decoding undoes the escaping, which emits only section 2.3's unreserved characters and section 2.1's triplets of RFC 3986, each byte in its one way |
| `AwsEscape.NormalRoundTrip` | internal/app/aws_sigv4.go:193-198 | Every text so written is the escaping of what it decodes to |
| `AwsQuery.Query` | internal/app/aws_sigv4.go:174-176 | A query's pairs grouped by name, values in order |
| `AwsQuery.AwsCanonicalQuery` | internal/app/aws_sigv4.go:175-191 | Names sorted, each one's values sorted, printed and joined: the sorted pairs printed |
| `AwsQuery.QueryExactly` | internal/app/aws_sigv4.go:173-191 | Two queries print alike exactly when they hold the same pairs, each as often: order never matters |
| `SigV4.TrimExactly` | internal/app/aws_sigv4.go:200-203 | Two header values trim alike exactly when they have the same words in order, and trimming twice is trimming once |
| `SigV4.SignedValues` | internal/app/aws_sigv4.go:112-120 | The host, the content type if there is one and every x-amz- header, its values joined, are signed, and nothing else |
| `SigV4.CanonicalHeaders` | internal/app/aws_sigv4.go:125-129 | One line for each signed name, in order |
| `SigV4.Canonicalize` | internal/app/aws_sigv4.go:112-139 | The text built step by step is the canonical request |
| `SigV4.WrittenInjective` | internal/app/aws_sigv4.go:132-139 | Its six parts can be read back off the text |
| `SigV4.CanonicalExactly` | internal/app/aws_sigv4.go:112-139 | Two requests share a canonical request exactly when they agree on method, path, the pairs of the query each as often, the headers signed, the words of each, and the payload's digest |
| `Orders.OrderedUnique` | internal/app/aws_sigv4.go:179-184 | There is one sorted arrangement of given elements, so how they came does not matter |

## Left out

- I/O: HTTP handlers, cookies, sessions, SQL, Slack and Teams calls, audit rows and logs. Only the transition each one makes is modelled.
- Cryptography: digests, MACs, sealing and token minting. A payload's digest is a given string in `SigV4`; nothing is claimed of the signature.
- Two rules are the same when every field is; the program compares their stored JSON, in which an empty list and none read alike.
- Storage failures: a route that cannot read or write its rows answers an error and changes nothing; those branches are not modelled.
- The type editor's own diff (`reviewRuleDiff`, `reviewRulesChange`, `reviewGlobsItems`, `keepBuiltinRules`): one row a rule, with no edit of order to be faithful to.
- `awsEndpoint`, the wording of cards, notes and refusals, quoting and truncation helpers, prompts and intent detection.
- Op names and strictness words as text: `BranchRules` starts from the word already read, the words it does not know included.
- Bytes that are not UTF-8: text is sequences of characters, but for query names and values, which are bytes.
- StaleNotes.NotesRightExactly: is about names that do not themselves end such a sentence, which `Notes.NamesArePlain` and `Notes.SpacelessIsPlain` show of every name a level can have (a login of GitHub's, a group's 80 characters, a repository), and about notes whose other words do not. Those words are any other text; that the program writes only some is not used.
- Proposals.ConsoleCall.StageBranchRules: what the list of a call comes to, its checks against the stored types and the permission it needs are inputs; the steps, links and audit fields of a card are not modelled.
- Proposals.ConsoleCall.Stage: whether a step is allowed is an input, and the binding of a card to its organisation and its expiry are not modelled.
- MisleadingNames.Namesakes: `reviewOneLine`, which makes two names read alike, is not part of this model; names are an arbitrary function of levels.
- ReviewTree.Followers: whether a level's own settings parse is an input of the node, and only the branch rules of the settings are modelled.
- AgentTurn.Call.Turn: the wording put in the place of an empty answer, the posts kept from a landing, streaming and the answer's delivery come after the outcome modelled; a stop is seen between rounds, not inside a call.
- AgentTurn.RoundsFor: the lookup of the scope's own number.
- Approvers.RouteTo: how a tier's members are resolved from ids, references and e-mail addresses; whether a tier's access covers a call is an input, as is comparing repository names without case.
- Urls.ReadPadded: which authorities are refused for their characters and what escaped bytes say as text are inputs; queries, fragments and users are cut off and not kept. Lengths of prefixes are in characters.
- ProxyMatch.CoveringConns: the second look for dot segments, at the path as it is escaped, which finds none the path itself does not have; the wording of refusals; case is ASCII case.
- GrantReplay.Replay: uploads that ride along with a write, and the text of the notes. Methods are upper-cased as ASCII. A pinned step never names a connection, so the choice among connections by name is left out.
- AccessRequests.EveryInterleavingIsSafe: the cards themselves, reasons added after a denial, and the summary turn after a grant.
- LoginFails.Fails.Fail: one reading of the clock a call, where the code reads it up to three times under its lock; a caller's check and its failure are one attempt, as `LoginFails.LockoutBound` is about attempts made one after the other.
- RateWindow.PerMinute.AllowPerMinute: seconds are computed in whole nanoseconds rather than in floating point.
- ConsoleRoles.NobodyAmplifies: is about rows as this program writes them, with known names under keys that are not empty; `PaddedNameWidens` shows why. Invitations and API keys are not modelled.
- SigV4.CanonicalExactly: is about requests a transport would send: no line break in a method or a path, no colon or line break in a header's name. A header map with two spellings of one name, and query pairs that do not parse, are not modelled.
