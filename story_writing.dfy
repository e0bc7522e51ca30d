/**
 * The state and the six state-changing operations of the collaborative
 * story-writing contract, as values: a `State` holds the five tables and the
 * two id counters, and each operation is a function from the old state (and
 * its arguments) to the new state and the operation's result.
 *
 * Composite keys are tuples: a chapter is keyed by (story, chapter index), a
 * plot decision by (story, decision id), a contributor mark by (story, sender).
 */
module StoryWriting {

  type StoryId = nat
  type ChapterIndex = nat
  type DecisionId = nat
  type Principal = string

  /** The one principal allowed to close a vote and to complete a story. */
  const ContractOwner: Principal := "contract-owner"

  datatype Story = Story(title: string, currentChapter: ChapterIndex, isComplete: bool)

  datatype Chapter = Chapter(content: string, author: Principal)

  /** A two-option vote; `options` and `votes` are the two-element arrays of the contract. */
  datatype PlotDecision = PlotDecision(options: (string, string), votes: (nat, nat), isOpen: bool)

  /** Which guard of an operation refused the call. */
  datatype Error = NotFound | StoryComplete | DecisionClosed | InvalidOption | Unauthorized

  datatype Result<T> = Ok(value: T) | Err(error: Error)

  datatype State = State(
    stories: map<StoryId, Story>,
    chapters: map<(StoryId, ChapterIndex), Chapter>,
    plotDecisions: map<(StoryId, DecisionId), PlotDecision>,
    storyContributors: map<(StoryId, Principal), bool>,
    storyOwners: map<StoryId, Principal>,
    lastStoryId: nat,
    lastDecisionId: nat)

  /** The new state after an operation, and what the operation returned. */
  datatype Step<T> = Step(state: State, result: Result<T>)

  /** All tables empty and both counters at zero. */
  function Cleared(): State {
    State(map[], map[], map[], map[], map[], 0, 0)
  }

  /** The tally of `option` (0 or 1). */
  function Tally(votes: (nat, nat), option: int): nat
    requires option == 0 || option == 1
  {
    if option == 0 then votes.0 else votes.1
  }

  /** `votes` with the tally of `option` (0 or 1) incremented. */
  function CountVote(votes: (nat, nat), option: int): (r: (nat, nat))
    requires option == 0 || option == 1
    ensures Tally(r, option) == Tally(votes, option) + 1
    ensures Tally(r, 1 - option) == Tally(votes, 1 - option)
  {
    if option == 0 then (votes.0 + 1, votes.1) else (votes.0, votes.1 + 1)
  }

  // ---------------------------------------------------------------------------
  // The six operations
  // ---------------------------------------------------------------------------

  /** Allocates the next story id; any sender may create a story. */
  function CreateStory(s: State, sender: Principal, title: string): Step<StoryId> {
    var id := s.lastStoryId + 1;
    Step(s.(lastStoryId := id,
            stories := s.stories[id := Story(title, 0, false)],
            storyOwners := s.storyOwners[id := sender]),
         Ok(id))
  }

  /** Appends the next chapter of an open story; any sender may add one. */
  function AddChapter(s: State, sender: Principal, storyId: StoryId, content: string): Step<ChapterIndex> {
    if storyId !in s.stories then Step(s, Err(NotFound))
    else if s.stories[storyId].isComplete then Step(s, Err(StoryComplete))
    else
      var story := s.stories[storyId];
      var index := story.currentChapter + 1;
      Step(s.(chapters := s.chapters[(storyId, index) := Chapter(content, sender)],
              stories := s.stories[storyId := story.(currentChapter := index)],
              storyContributors := s.storyContributors[(storyId, sender) := true]),
           Ok(index))
  }

  /** Opens a vote on an open story under the next (global) decision id. */
  function CreatePlotDecision(s: State, storyId: StoryId, optionA: string, optionB: string): Step<DecisionId> {
    if storyId !in s.stories then Step(s, Err(NotFound))
    else if s.stories[storyId].isComplete then Step(s, Err(StoryComplete))
    else
      var id := s.lastDecisionId + 1;
      Step(s.(lastDecisionId := id,
              plotDecisions := s.plotDecisions[(storyId, id) := PlotDecision((optionA, optionB), (0, 0), true)]),
           Ok(id))
  }

  /** Counts one vote for option 0 or 1 of an open decision; anyone may vote, repeatedly. */
  function VoteOnPlot(s: State, storyId: StoryId, decisionId: DecisionId, option: int): Step<()> {
    var key := (storyId, decisionId);
    if key !in s.plotDecisions then Step(s, Err(NotFound))
    else if !s.plotDecisions[key].isOpen then Step(s, Err(DecisionClosed))
    else if option != 0 && option != 1 then Step(s, Err(InvalidOption))
    else
      var d := s.plotDecisions[key];
      Step(s.(plotDecisions := s.plotDecisions[key := d.(votes := CountVote(d.votes, option))]), Ok(()))
  }

  /** Closes a decision; only the contract owner may, and the owner is checked first. */
  function CloseVoting(s: State, sender: Principal, storyId: StoryId, decisionId: DecisionId): Step<()> {
    var key := (storyId, decisionId);
    if sender != ContractOwner then Step(s, Err(Unauthorized))
    else if key !in s.plotDecisions then Step(s, Err(NotFound))
    else
      var d := s.plotDecisions[key];
      Step(s.(plotDecisions := s.plotDecisions[key := d.(isOpen := false)]), Ok(()))
  }

  /** Completes a story; only the contract owner may, and the owner is checked first. */
  function CompleteStory(s: State, sender: Principal, storyId: StoryId): Step<()> {
    if sender != ContractOwner then Step(s, Err(Unauthorized))
    else if storyId !in s.stories then Step(s, Err(NotFound))
    else
      var story := s.stories[storyId];
      Step(s.(stories := s.stories[storyId := story.(isComplete := true)]), Ok(()))
  }

  // ---------------------------------------------------------------------------
  // Sequences of calls
  // ---------------------------------------------------------------------------

  /** One call of one of the six operations, with its arguments. */
  datatype Call =
    | CreateStoryCall(sender: Principal, title: string)
    | AddChapterCall(sender: Principal, storyId: StoryId, content: string)
    | CreatePlotDecisionCall(storyId: StoryId, optionA: string, optionB: string)
    | VoteOnPlotCall(storyId: StoryId, decisionId: DecisionId, option: int)
    | CloseVotingCall(sender: Principal, storyId: StoryId, decisionId: DecisionId)
    | CompleteStoryCall(sender: Principal, storyId: StoryId)

  /** The state after one call, whether it succeeded or failed. */
  function Apply(s: State, c: Call): State {
    match c
    case CreateStoryCall(sender, title) => CreateStory(s, sender, title).state
    case AddChapterCall(sender, storyId, content) => AddChapter(s, sender, storyId, content).state
    case CreatePlotDecisionCall(storyId, a, b) => CreatePlotDecision(s, storyId, a, b).state
    case VoteOnPlotCall(storyId, decisionId, option) => VoteOnPlot(s, storyId, decisionId, option).state
    case CloseVotingCall(sender, storyId, decisionId) => CloseVoting(s, sender, storyId, decisionId).state
    case CompleteStoryCall(sender, storyId) => CompleteStory(s, sender, storyId).state
  }

  /** The state after the calls in order. */
  function Run(s: State, calls: seq<Call>): State
    decreases |calls|
  {
    if calls == [] then s else Run(Apply(s, calls[0]), calls[1..])
  }

  // ---------------------------------------------------------------------------
  // The invariant every reachable state keeps
  // ---------------------------------------------------------------------------

  /** Some chapter of story `storyId` was written by `p`. */
  ghost predicate HasAuthored(s: State, storyId: StoryId, p: Principal) {
    exists i :: (storyId, i) in s.chapters && s.chapters[(storyId, i)].author == p
  }

  /** Stories are numbered 1..lastStoryId and each has an owner. */
  ghost predicate StoriesDense(s: State) {
    && (forall id :: id in s.stories <==> 1 <= id <= s.lastStoryId)
    && s.storyOwners.Keys == s.stories.Keys
  }

  /** A story's chapters are exactly those numbered 1..currentChapter. */
  ghost predicate ChaptersDense(s: State) {
    && (forall k :: k in s.chapters ==> k.0 in s.stories && 1 <= k.1 <= s.stories[k.0].currentChapter)
    && (forall id, i :: id in s.stories && 1 <= i <= s.stories[id].currentChapter ==> (id, i) in s.chapters)
  }

  /** Every decision belongs to a story and carries its own id from 1..lastDecisionId. */
  ghost predicate DecisionsKeyed(s: State) {
    && (forall k :: k in s.plotDecisions ==> k.0 in s.stories && 1 <= k.1 <= s.lastDecisionId)
    && (forall k, k' :: k in s.plotDecisions && k' in s.plotDecisions && k.1 == k'.1 ==> k == k')
  }

  /** The contributor marks of a story are exactly the authors of its chapters, all marked true. */
  ghost predicate ContributorsMarked(s: State) {
    && (forall k :: k in s.storyContributors ==> s.storyContributors[k])
    && (forall id: StoryId, p :: (id, p) in s.storyContributors <==> HasAuthored(s, id, p))
  }

  ghost predicate Valid(s: State) {
    StoriesDense(s) && ChaptersDense(s) && DecisionsKeyed(s) && ContributorsMarked(s)
  }
}
