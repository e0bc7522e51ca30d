# Collaborative story writing, modelled in Dafny

The repository mocks a Clarity contract for collaborative fiction in
TypeScript. The state is five tables, `stories`, `chapters`, `plotDecisions`,
`storyContributors` and `storyOwners`, plus two id counters, `lastStoryId` and
`lastDecisionId`. Six operations act on that state:

- `createStory`: anyone creates a story under the next story id.
- `addChapter`: anyone appends the next chapter of a story that is not
  complete. The author is marked as a contributor.
- `createPlotDecision`: opens a two-option vote on a story that is not
  complete. Decision ids come from one counter shared by all stories.
- `voteOnPlot`: counts one vote for option 0 or 1 of an open decision.
- `closeVoting`: closes a decision. Only `contract-owner` may call it.
- `completeStory`: seals a story. Only `contract-owner` may call it.

The project has four modules:

- **`StoryWriting`** (`story_writing.dfy`) models the operations on values.
  - A `State` datatype holds the tables as maps with tuple keys and the two
    counters as `nat`s.
  - Each operation is a function from the old state to a `Step`: the new state
    and a `Result`.
  - It checks the same guards in the same order as the TypeScript mock.
  - `Call`, `Apply` and `Run` replay a sequence of calls.
  - `Valid` is the invariant of reachable states:
    - stories are numbered 1..`lastStoryId` and each has an owner;
    - a story's chapters are exactly 1..`currentChapter`;
    - every decision belongs to a story and has its own id in
      1..`lastDecisionId`;
    - the contributor marks of a story are exactly the authors of its
      chapters.
- **`StoryWritingProofs`** (`story_writing_proofs.dfy`) proves the following:
  - the guards and effects of each operation, including frame conditions;
  - that `Valid` holds initially and is kept by every call and every sequence
    of calls;
  - the relation `Evolves`: nothing is deleted, the counters grow, `isComplete`
    and `!isOpen` are one-way, tallies never fall and chapters never change;
  - idempotence of closing and completing;
  - what sequences of one kind of call produce: n stories get ids
    `last+1..last+n`, n chapters are stored as 1..n, and tallies equal the
    count of each option voted.
- **`StoryWritingContract`** (`contract.dfy`) is the contract as an object.
  - `StoryContract` has the seven module-level variables of the mock as fields.
  - Its methods update those fields in place, like the mock's `Map.set` calls and
    its field mutations.
  - Each method is proved to produce the state and result of the matching
    `StoryWriting` function, and to keep `Valid`.
- **`StoryWritingScenarios`** (`scenarios.dfy`) replays the seven vitest cases
  of the test file on a fresh `StoryContract`. Each `expect` becomes an
  `assert` that the verifier discharges.
  - A fresh object stands for the `beforeEach` reset.
  - `StoryLifecycle` adds one run through the whole life of a story.

## Model

| member | source | states |
|---|---|---|
| StoryWriting.CreateStory | tests/story-writing.test.ts:13-18 | reference definition of createStory; no contract of its own; its properties are stated by CreateStoryEffect, CreateStoryPreservesValid and CreateStoryEvolves |
| StoryWriting.AddChapter | tests/story-writing.test.ts:20-30 | reference definition of addChapter; no contract of its own; its properties are stated by AddChapterEffect, AddChapterPreservesValid and AddChapterEvolves |
| StoryWriting.CreatePlotDecision | tests/story-writing.test.ts:32-40 | reference definition of createPlotDecision; no contract of its own; its properties are stated by CreatePlotDecisionEffect, CreatePlotDecisionPreservesValid and CreatePlotDecisionEvolves |
| StoryWriting.VoteOnPlot | tests/story-writing.test.ts:42-51 | reference definition of voteOnPlot; no contract of its own; its properties are stated by VoteOnPlotEffect, VoteOnPlotPreservesValid and VoteOnPlotEvolves |
| StoryWriting.CloseVoting | tests/story-writing.test.ts:53-62 | reference definition of closeVoting; no contract of its own; its properties are stated by CloseVotingEffect, CloseVotingPreservesValid and CloseVotingEvolves |
| StoryWriting.CompleteStory | tests/story-writing.test.ts:64-73 | reference definition of completeStory; no contract of its own; its properties are stated by CompleteStoryEffect, CompleteStoryPreservesValid and CompleteStoryEvolves |
| StoryWriting.CountVote | tests/story-writing.test.ts:50 | the chosen option's tally rises by exactly one; the other tally is unchanged |
| StoryWritingContract.StoryContract.constructor | tests/story-writing.test.ts:3-10 | all five tables empty and both counters zero (the `Cleared` state), which satisfies `Valid` |
| StoryWritingContract.StoryContract.CreateStory | tests/story-writing.test.ts:13-18 | in-place update equal to `StoryWriting.CreateStory`: the counter is pre-incremented, the story `{title, 0, false}` and its owner are stored, and the new id is returned; keeps `Valid` |
| StoryWritingContract.StoryContract.AddChapter | tests/story-writing.test.ts:20-30 | in-place update equal to `StoryWriting.AddChapter`: absent and completed stories are refused; otherwise chapter `currentChapter+1` is stored, the story advances and the sender is marked; keeps `Valid` |
| StoryWritingContract.StoryContract.CreatePlotDecision | tests/story-writing.test.ts:32-40 | in-place update equal to `StoryWriting.CreatePlotDecision`: same guards as addChapter; the global decision counter is pre-incremented and an open `[0,0]` decision is stored; keeps `Valid` |
| StoryWritingContract.StoryContract.VoteOnPlot | tests/story-writing.test.ts:42-51 | in-place update equal to `StoryWriting.VoteOnPlot`: missing or closed decisions are refused, then any option other than 0 and 1; otherwise one tally rises; keeps `Valid` |
| StoryWritingContract.StoryContract.CloseVoting | tests/story-writing.test.ts:53-62 | in-place update equal to `StoryWriting.CloseVoting`: a non-owner is refused before the lookup, then a missing decision; otherwise `isOpen` becomes false; keeps `Valid` |
| StoryWritingContract.StoryContract.CompleteStory | tests/story-writing.test.ts:64-73 | in-place update equal to `StoryWriting.CompleteStory`: a non-owner is refused before the lookup, then a missing story; otherwise `isComplete` becomes true; keeps `Valid` |
| StoryWritingProofs.CreateStoryEffect | tests/story-writing.test.ts:13-18 | never fails; returns `lastStoryId+1`, an id not yet used; changes only stories, owners and the story counter |
| StoryWritingProofs.AddChapterEffect | tests/story-writing.test.ts:20-30 | NotFound iff the story is absent; StoryComplete iff it is complete; succeeds iff the story is present and open; an error changes nothing; success stores a chapter under a fresh key `currentChapter+1` by any sender, advances the story, marks the sender and changes nothing else |
| StoryWritingProofs.CreatePlotDecisionEffect | tests/story-writing.test.ts:32-40 | same error conditions as addChapter; succeeds iff the story is present and open; success returns `lastDecisionId+1`, which no decision of any story holds, stores an open `[0,0]` decision with the given options and changes nothing else |
| StoryWritingProofs.VoteOnPlotEffect | tests/story-writing.test.ts:42-51 | NotFound iff the decision is absent; DecisionClosed iff it is closed; InvalidOption iff it is open and the option is neither 0 nor 1; succeeds iff the decision is present and open and the option is 0 or 1; an error changes nothing; success raises exactly the chosen tally by one and leaves everything else unchanged |
| StoryWritingProofs.CloseVotingEffect | tests/story-writing.test.ts:53-62 | Unauthorized iff the sender is not `contract-owner`, whatever the decision; NotFound iff the owner names a missing decision; succeeds iff the owner names an existing decision; an error changes nothing; success clears only `isOpen` |
| StoryWritingProofs.CompleteStoryEffect | tests/story-writing.test.ts:64-73 | Unauthorized iff the sender is not `contract-owner`; NotFound iff the owner names a missing story; succeeds iff the owner names an existing story; an error changes nothing; success sets only `isComplete` |
| StoryWritingProofs.CloseVotingIdempotent | tests/story-writing.test.ts:53-62 | closing a closed decision again succeeds and changes nothing; a vote on it then fails with DecisionClosed and changes nothing |
| StoryWritingProofs.CompleteStoryIdempotent | tests/story-writing.test.ts:64-73 | completing a completed story again succeeds and changes nothing; addChapter and createPlotDecision on it fail with StoryComplete and change nothing |
| StoryWritingProofs.ClearedValid | tests/story-writing.test.ts:3-10 | the cleared state satisfies the invariant |
| StoryWritingProofs.CreateStoryPreservesValid | tests/story-writing.test.ts:13-18 | createStory keeps the invariant |
| StoryWritingProofs.AddChapterPreservesValid | tests/story-writing.test.ts:20-30 | addChapter keeps the invariant: chapters stay exactly 1..currentChapter and the contributors stay exactly the authors |
| StoryWritingProofs.AddChapterKeepsChaptersDense | tests/story-writing.test.ts:25-27 | storing chapter `currentChapter+1` and advancing the story keeps every story's chapters exactly 1..currentChapter |
| StoryWritingProofs.AddChapterKeepsContributorsMarked | tests/story-writing.test.ts:26-28 | after addChapter, a contributor mark exists iff that principal wrote a chapter of that story, and every mark is true |
| StoryWritingProofs.CreatePlotDecisionPreservesValid | tests/story-writing.test.ts:32-40 | createPlotDecision keeps the invariant: the new decision belongs to an existing story and its id is unique |
| StoryWritingProofs.VoteOnPlotPreservesValid | tests/story-writing.test.ts:42-51 | voteOnPlot keeps the invariant |
| StoryWritingProofs.CloseVotingPreservesValid | tests/story-writing.test.ts:53-62 | closeVoting keeps the invariant |
| StoryWritingProofs.CompleteStoryPreservesValid | tests/story-writing.test.ts:64-73 | completeStory keeps the invariant |
| StoryWritingProofs.ApplyPreservesValid | tests/story-writing.test.ts:13-73 | any single call, successful or refused, keeps the invariant |
| StoryWritingProofs.RunPreservesValid | tests/story-writing.test.ts:13-73 | any sequence of calls keeps the invariant |
| StoryWritingProofs.EvolvesReflexive | tests/story-writing.test.ts:13-73 | a state evolves to itself |
| StoryWritingProofs.EvolvesTransitive | tests/story-writing.test.ts:13-73 | the evolution relation composes, including "a completed story gains no decision" |
| StoryWritingProofs.CreateStoryEvolves | tests/story-writing.test.ts:13-18 | createStory evolves the state; its story and owner keys gain exactly `lastStoryId+1`, and every existing story is unchanged |
| StoryWritingProofs.AddChapterEvolves | tests/story-writing.test.ts:20-30 | addChapter overwrites no chapter, moves `currentChapter` up only, and never touches a completed story |
| StoryWritingProofs.CreatePlotDecisionEvolves | tests/story-writing.test.ts:32-40 | createPlotDecision overwrites no decision and adds none to a completed story |
| StoryWritingProofs.VoteOnPlotEvolves | tests/story-writing.test.ts:42-51 | votes only raise tallies, and only on open decisions |
| StoryWritingProofs.CloseVotingEvolves | tests/story-writing.test.ts:53-62 | closeVoting evolves the state (closing is one-way); it adds no decision, and every decision keeps its options and its tallies |
| StoryWritingProofs.CompleteStoryEvolves | tests/story-writing.test.ts:64-73 | completeStory evolves the state (completion is one-way); it adds no story, and every story keeps its title and its `currentChapter` |
| StoryWritingProofs.ApplyEvolves | tests/story-writing.test.ts:13-73 | from a valid state, every call evolves the state: counters grow, nothing is deleted, titles, owners, chapters and options are kept, tallies never fall and the flags are one-way |
| StoryWritingProofs.RunEvolves | tests/story-writing.test.ts:13-73 | any sequence of calls from a valid state evolves the state in the same sense |
| StoryWritingProofs.RunKeepsChapter | tests/story-writing.test.ts:26 | a stored chapter survives any later calls unchanged |
| StoryWritingProofs.CompletedStoryStaysSealed | tests/story-writing.test.ts:20-24 | after any later calls, addChapter and createPlotDecision on a completed story fail with StoryComplete and change nothing |
| StoryWritingProofs.ClosedDecisionStaysClosed | tests/story-writing.test.ts:42-46 | after any later calls, a vote on a closed decision fails with DecisionClosed, and its tallies are those it had when closed |
| StoryWritingProofs.CreateStoriesCount | tests/story-writing.test.ts:13-14 | n createStory calls raise `lastStoryId` by exactly n and leave `lastDecisionId` alone |
| StoryWritingProofs.CreateStoriesKeepEarlier | tests/story-writing.test.ts:13-17 | createStory calls leave every story and every owner numbered up to the old counter as it was |
| StoryWritingProofs.CreateStoriesNumbered | tests/story-writing.test.ts:13-15 | the k-th of n createStory calls stores its title as story `last+k`, with no chapters and not complete |
| StoryWritingProofs.CreateStoriesOwned | tests/story-writing.test.ts:13-16 | the k-th of n createStory calls records its sender as owner of story `last+k` |
| StoryWritingProofs.CreateStoryIdsFromCleared | tests/story-writing.test.ts:13-18 | from the cleared state, the k-th createStory call (counting from 0) returns id k+1 |
| StoryWritingProofs.AddChaptersAdvance | tests/story-writing.test.ts:20-30 | n addChapter calls on an open story raise its `currentChapter` by exactly n and change nothing else about it |
| StoryWritingProofs.AddChaptersKeep | tests/story-writing.test.ts:20-30 | addChapter calls on one story leave every chapter of other stories, and every earlier chapter of that story, unchanged |
| StoryWritingProofs.AddChaptersStore | tests/story-writing.test.ts:25-26 | the k-th of n addChapter calls stores its content and author as chapter `c+k` |
| StoryWritingProofs.AddChaptersOnlyAppend | tests/story-writing.test.ts:20-30 | addChapter calls add chapters only to the named story, and only above its old `currentChapter` |
| StoryWritingProofs.AddChaptersMark | tests/story-writing.test.ts:28 | after addChapter calls, every earlier contributor mark is still present, a `true` one still `true`, and every author is marked `true` as a contributor of the story |
| StoryWritingProofs.AddChaptersKeysExact | tests/story-writing.test.ts:20-30 | n chapters added to a story without chapters are stored under exactly the keys 1..n |
| StoryWritingProofs.NewStoryHasNoChapters | tests/story-writing.test.ts:13-18 | a story fresh from createStory has no chapter, so the lemmas above apply to it |
| StoryWritingProofs.VotesCounted | tests/story-writing.test.ts:42-51 | after votes on an open decision, each tally has risen by the number of times its option was voted; other options are refused and nothing else changes |

The scenario methods (`scenarios.dfy`, tests/story-writing.test.ts:86-134)
replay the test cases. Each test case's method has no contract; its asserts
restate the test's expectations, and the verifier checks each one:

- `ShouldCreateANewStory`: the new story gets id 1, with `{title, 0, false}`
  and owner `user1`.
- `ShouldAddAChapterToAStory`: chapter 1 is stored and `user2` is marked.
- `ShouldCreateAPlotDecision`: decision 1 is open at `[0,0]`.
- `ShouldAllowVotingOnAPlotDecision`: the tallies reach `[2,1]`.
- `ShouldCloseVotingOnAPlotDecision`: `isOpen` becomes false.
- `ShouldCompleteAStory`: `isComplete` becomes true.
- `ShouldNotAllowAddingChaptersToACompletedStory`: the call is refused with
  `StoryComplete` and the state is unchanged.

`StoryLifecycle` follows one story through its whole life and has no
contract. It creates story 1, adds chapter 1 by `u2` and opens decision 1 at
`[0,0]`, then calls two pieces:

- `VoteTwiceForFirst` requires a valid contract whose decision (1, 1) is open
  at `[0,0]`. Its ensures give a valid contract with the stories unchanged and
  the decision open at `[2,1]`.
- `CloseAndSeal` requires a valid contract with an open story 1 and a decision
  (1, 1), and has no ensures. Its asserts check three steps: the owner closes
  the decision, then completes the story, and a further chapter is then
  refused with `StoryComplete`.

## Left out

- The vitest harness (`describe`, `it`, `beforeEach`) is not modelled. A fresh `StoryContract` stands for the cleared tables.
- String keys are not modelled.
  - The mock builds its keys as `` `${storyId}-${n}` `` and `` `${storyId}-${sender}` ``; the model uses tuple keys.
  - Ids are non-negative integers and contain no `-`, so the string encoding is injective on the keys the contract builds. The tuple keys lose nothing.
- Error messages are left out. The mock throws one message for two conditions, and the `Error` datatype tells them apart:
  - addChapter and createPlotDecision throw "Story not found or completed"; the model returns `NotFound` or `StoryComplete`;
  - voteOnPlot throws "Decision not found or closed"; the model returns `NotFound` or `DecisionClosed`.
- An exception is modelled as an `Err` result with the state unchanged. In the mock, every throw happens before any mutation.
- JavaScript number semantics are not modelled (doubles, `NaN`, fractional ids, precision above 2^53).
  - Ids and tallies are unbounded `nat`s.
  - A vote option is an `int`. Only 0 and 1 pass the mock's strict-equality check, so nothing a fractional option could do is lost.
- Aliasing of JavaScript records is not modelled. The mock mutates the story and decision objects stored in its maps, and the model stores the updated record back into the map. The two agree because no record is shared between keys.
- createPlotDecision and voteOnPlot take no sender, as in the mock. The call is not attributed to anyone, and nothing stops one principal from voting repeatedly.
- StoryWritingProofs.AddChaptersKeysExact: does not state the story's new `currentChapter`; with AddChaptersAdvance it gives `currentChapter == n` and chapter keys exactly 1..n.
- The module imports and the vitest helpers of the test file (tests/story-writing.test.ts:1) are not part of this model.
