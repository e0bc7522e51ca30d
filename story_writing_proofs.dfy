/**
 * What the story-writing contract promises, proved about the transition
 * functions of module StoryWriting: the guards and effects of each
 * operation, the invariant every operation keeps, the ways a state may
 * evolve (one-way flags, monotonic counters, immutable chapters), and the
 * outcome of sequences of calls.
 */
module StoryWritingProofs {
  import opened StoryWriting

  // ---------------------------------------------------------------------------
  // Guards and effects, one operation at a time
  // ---------------------------------------------------------------------------

  /** createStory never fails, hands out a fresh id one past the counter, and touches nothing but the stories, owners and story counter. */
  lemma CreateStoryEffect(s: State, sender: Principal, title: string)
    requires Valid(s)
    ensures var r := CreateStory(s, sender, title);
      && r.result == Ok(s.lastStoryId + 1)
      && s.lastStoryId + 1 !in s.stories
      && r.state.stories == s.stories[s.lastStoryId + 1 := Story(title, 0, false)]
      && r.state.storyOwners == s.storyOwners[s.lastStoryId + 1 := sender]
      && r.state.lastStoryId == s.lastStoryId + 1
      && r.state.(stories := s.stories, storyOwners := s.storyOwners, lastStoryId := s.lastStoryId) == s
  {
  }

  /** addChapter refuses an absent or completed story and changes nothing then; otherwise it appends exactly chapter currentChapter + 1, by any sender. */
  lemma AddChapterEffect(s: State, sender: Principal, storyId: StoryId, content: string)
    requires Valid(s)
    ensures var r := AddChapter(s, sender, storyId, content);
      && (r.result.Err? ==> r.state == s)
      && (r.result == Err(NotFound) <==> storyId !in s.stories)
      && (r.result == Err(StoryComplete) <==> storyId in s.stories && s.stories[storyId].isComplete)
      && (r.result.Ok? <==> storyId in s.stories && !s.stories[storyId].isComplete)
      && (r.result.Ok? ==>
            var n := s.stories[storyId].currentChapter + 1;
            && r.result.value == n
            && (storyId, n) !in s.chapters
            && r.state.chapters == s.chapters[(storyId, n) := Chapter(content, sender)]
            && r.state.stories == s.stories[storyId := s.stories[storyId].(currentChapter := n)]
            && r.state.storyContributors == s.storyContributors[(storyId, sender) := true]
            && r.state.(chapters := s.chapters, stories := s.stories, storyContributors := s.storyContributors) == s)
  {
  }

  /** createPlotDecision has addChapter's guards; on success it opens a [0, 0] vote under an id no decision of any story holds yet. */
  lemma CreatePlotDecisionEffect(s: State, storyId: StoryId, optionA: string, optionB: string)
    requires Valid(s)
    ensures var r := CreatePlotDecision(s, storyId, optionA, optionB);
      && (r.result.Err? ==> r.state == s)
      && (r.result == Err(NotFound) <==> storyId !in s.stories)
      && (r.result == Err(StoryComplete) <==> storyId in s.stories && s.stories[storyId].isComplete)
      && (r.result.Ok? <==> storyId in s.stories && !s.stories[storyId].isComplete)
      && (r.result.Ok? ==>
            var id := s.lastDecisionId + 1;
            && r.result.value == id
            && (forall k :: k in s.plotDecisions ==> k.1 != id)
            && r.state.plotDecisions == s.plotDecisions[(storyId, id) := PlotDecision((optionA, optionB), (0, 0), true)]
            && r.state.lastDecisionId == id
            && r.state.(plotDecisions := s.plotDecisions, lastDecisionId := s.lastDecisionId) == s)
  {
  }

  /** voteOnPlot refuses a missing or closed decision, then an option other than 0 and 1; a vote that is counted raises exactly its own tally by one. */
  lemma VoteOnPlotEffect(s: State, storyId: StoryId, decisionId: DecisionId, option: int)
    ensures var r := VoteOnPlot(s, storyId, decisionId, option);
      var key := (storyId, decisionId);
      && (r.result.Err? ==> r.state == s)
      && (r.result == Err(NotFound) <==> key !in s.plotDecisions)
      && (r.result == Err(DecisionClosed) <==> key in s.plotDecisions && !s.plotDecisions[key].isOpen)
      && (r.result == Err(InvalidOption) <==>
            key in s.plotDecisions && s.plotDecisions[key].isOpen && option != 0 && option != 1)
      && (r.result.Ok? <==> key in s.plotDecisions && s.plotDecisions[key].isOpen && (option == 0 || option == 1))
      && (r.result.Ok? ==>
            var d := s.plotDecisions[key];
            && (option == 0 || option == 1)
            && key in r.state.plotDecisions
            && Tally(r.state.plotDecisions[key].votes, option) == Tally(d.votes, option) + 1
            && Tally(r.state.plotDecisions[key].votes, 1 - option) == Tally(d.votes, 1 - option)
            && r.state.plotDecisions[key].(votes := d.votes) == d
            && r.state.(plotDecisions := s.plotDecisions) == s
            && r.state.plotDecisions - {key} == s.plotDecisions - {key})
  {
  }

  /** closeVoting checks the sender before it looks the decision up, and on success clears only isOpen. */
  lemma CloseVotingEffect(s: State, sender: Principal, storyId: StoryId, decisionId: DecisionId)
    ensures var r := CloseVoting(s, sender, storyId, decisionId);
      var key := (storyId, decisionId);
      && (r.result.Err? ==> r.state == s)
      && (r.result == Err(Unauthorized) <==> sender != ContractOwner)
      && (r.result == Err(NotFound) <==> sender == ContractOwner && key !in s.plotDecisions)
      && (r.result.Ok? <==> sender == ContractOwner && key in s.plotDecisions)
      && (r.result.Ok? ==>
            && r.state.plotDecisions == s.plotDecisions[key := s.plotDecisions[key].(isOpen := false)]
            && r.state.(plotDecisions := s.plotDecisions) == s)
  {
  }

  /** completeStory checks the sender before it looks the story up, and on success sets only isComplete. */
  lemma CompleteStoryEffect(s: State, sender: Principal, storyId: StoryId)
    ensures var r := CompleteStory(s, sender, storyId);
      && (r.result.Err? ==> r.state == s)
      && (r.result == Err(Unauthorized) <==> sender != ContractOwner)
      && (r.result == Err(NotFound) <==> sender == ContractOwner && storyId !in s.stories)
      && (r.result.Ok? <==> sender == ContractOwner && storyId in s.stories)
      && (r.result.Ok? ==>
            && r.state.stories == s.stories[storyId := s.stories[storyId].(isComplete := true)]
            && r.state.(stories := s.stories) == s)
  {
  }

  /** A second closeVoting by the owner succeeds and changes nothing, and no vote on the decision is counted afterwards. */
  lemma CloseVotingIdempotent(s: State, storyId: StoryId, decisionId: DecisionId, option: int)
    requires CloseVoting(s, ContractOwner, storyId, decisionId).result.Ok?
    ensures var s' := CloseVoting(s, ContractOwner, storyId, decisionId).state;
      && CloseVoting(s', ContractOwner, storyId, decisionId) == Step(s', Ok(()))
      && VoteOnPlot(s', storyId, decisionId, option) == Step(s', Err(DecisionClosed))
  {
    var key := (storyId, decisionId);
    var s' := CloseVoting(s, ContractOwner, storyId, decisionId).state;
    assert s'.plotDecisions[key := s'.plotDecisions[key].(isOpen := false)] == s'.plotDecisions;
  }

  /** A second completeStory by the owner succeeds and changes nothing, and the story takes no chapter and no decision afterwards. */
  lemma CompleteStoryIdempotent(s: State, storyId: StoryId, sender: Principal, content: string, optionA: string, optionB: string)
    requires CompleteStory(s, ContractOwner, storyId).result.Ok?
    ensures var s' := CompleteStory(s, ContractOwner, storyId).state;
      && CompleteStory(s', ContractOwner, storyId) == Step(s', Ok(()))
      && AddChapter(s', sender, storyId, content) == Step(s', Err(StoryComplete))
      && CreatePlotDecision(s', storyId, optionA, optionB) == Step(s', Err(StoryComplete))
  {
    var s' := CompleteStory(s, ContractOwner, storyId).state;
    assert s'.stories[storyId := s'.stories[storyId].(isComplete := true)] == s'.stories;
  }

  // ---------------------------------------------------------------------------
  // The invariant
  // ---------------------------------------------------------------------------

  lemma ClearedValid()
    ensures Valid(Cleared())
  {
  }

  lemma CreateStoryPreservesValid(s: State, sender: Principal, title: string)
    requires Valid(s)
    ensures Valid(CreateStory(s, sender, title).state)
  {
    var s' := CreateStory(s, sender, title).state;
    forall id: StoryId, p | HasAuthored(s', id, p) ensures HasAuthored(s, id, p) {
      var i :| (id, i) in s'.chapters && s'.chapters[(id, i)].author == p;
      assert (id, i) in s.chapters;
    }
  }

  lemma AddChapterPreservesValid(s: State, sender: Principal, storyId: StoryId, content: string)
    requires Valid(s)
    ensures Valid(AddChapter(s, sender, storyId, content).state)
  {
    if AddChapter(s, sender, storyId, content).result.Ok? {
      AddChapterKeepsChaptersDense(s, sender, storyId, content);
      AddChapterKeepsContributorsMarked(s, sender, storyId, content);
    }
  }

  lemma AddChapterKeepsChaptersDense(s: State, sender: Principal, storyId: StoryId, content: string)
    requires Valid(s)
    requires AddChapter(s, sender, storyId, content).result.Ok?
    ensures ChaptersDense(AddChapter(s, sender, storyId, content).state)
  {
    var s' := AddChapter(s, sender, storyId, content).state;
    var n := s.stories[storyId].currentChapter + 1;
    forall id, i | id in s'.stories && 1 <= i <= s'.stories[id].currentChapter ensures (id, i) in s'.chapters {
      if id != storyId || i != n {
        assert (id, i) in s.chapters;
      }
    }
  }

  lemma AddChapterKeepsContributorsMarked(s: State, sender: Principal, storyId: StoryId, content: string)
    requires Valid(s)
    requires AddChapter(s, sender, storyId, content).result.Ok?
    ensures ContributorsMarked(AddChapter(s, sender, storyId, content).state)
  {
    var s' := AddChapter(s, sender, storyId, content).state;
    var n := s.stories[storyId].currentChapter + 1;
    assert (storyId, n) !in s.chapters;
    assert s'.chapters == s.chapters[(storyId, n) := Chapter(content, sender)];
    assert s'.storyContributors == s.storyContributors[(storyId, sender) := true];
    forall id: StoryId, p ensures (id, p) in s'.storyContributors <==> HasAuthored(s', id, p) {
      if (id, p) == (storyId, sender) {
        assert (storyId, n) in s'.chapters && s'.chapters[(storyId, n)].author == sender;
      } else {
        if HasAuthored(s', id, p) {
          var i :| (id, i) in s'.chapters && s'.chapters[(id, i)].author == p;
          assert (id, i) in s.chapters && s.chapters[(id, i)] == s'.chapters[(id, i)];
        }
        if HasAuthored(s, id, p) {
          var i :| (id, i) in s.chapters && s.chapters[(id, i)].author == p;
          assert (id, i) in s'.chapters && s'.chapters[(id, i)] == s.chapters[(id, i)];
        }
      }
    }
  }

  lemma CreatePlotDecisionPreservesValid(s: State, storyId: StoryId, optionA: string, optionB: string)
    requires Valid(s)
    ensures Valid(CreatePlotDecision(s, storyId, optionA, optionB).state)
  {
  }

  lemma VoteOnPlotPreservesValid(s: State, storyId: StoryId, decisionId: DecisionId, option: int)
    requires Valid(s)
    ensures Valid(VoteOnPlot(s, storyId, decisionId, option).state)
  {
  }

  lemma CloseVotingPreservesValid(s: State, sender: Principal, storyId: StoryId, decisionId: DecisionId)
    requires Valid(s)
    ensures Valid(CloseVoting(s, sender, storyId, decisionId).state)
  {
  }

  lemma CompleteStoryPreservesValid(s: State, sender: Principal, storyId: StoryId)
    requires Valid(s)
    ensures Valid(CompleteStory(s, sender, storyId).state)
  {
  }

  lemma ApplyPreservesValid(s: State, c: Call)
    requires Valid(s)
    ensures Valid(Apply(s, c))
  {
    match c
    case CreateStoryCall(sender, title) => CreateStoryPreservesValid(s, sender, title);
    case AddChapterCall(sender, storyId, content) => AddChapterPreservesValid(s, sender, storyId, content);
    case CreatePlotDecisionCall(storyId, a, b) => CreatePlotDecisionPreservesValid(s, storyId, a, b);
    case VoteOnPlotCall(storyId, decisionId, option) => VoteOnPlotPreservesValid(s, storyId, decisionId, option);
    case CloseVotingCall(sender, storyId, decisionId) => CloseVotingPreservesValid(s, sender, storyId, decisionId);
    case CompleteStoryCall(sender, storyId) => CompleteStoryPreservesValid(s, sender, storyId);
  }

  /** Every state reached from a valid one by any calls is valid. */
  lemma {:induction false} RunPreservesValid(s: State, calls: seq<Call>)
    requires Valid(s)
    ensures Valid(Run(s, calls))
    decreases |calls|
  {
    if calls != [] {
      ApplyPreservesValid(s, calls[0]);
      RunPreservesValid(Apply(s, calls[0]), calls[1..]);
    }
  }

  // ---------------------------------------------------------------------------
  // How a state may evolve
  // ---------------------------------------------------------------------------

  /** A story keeps its title; its chapter count never falls, and once complete it stays complete with no new chapter. */
  ghost predicate StoryEvolves(a: Story, b: Story) {
    && b.title == a.title
    && a.currentChapter <= b.currentChapter
    && (a.isComplete ==> b.isComplete && b.currentChapter == a.currentChapter)
  }

  /** A decision keeps its options; its tallies never fall, and once closed it stays closed with frozen tallies. */
  ghost predicate DecisionEvolves(a: PlotDecision, b: PlotDecision) {
    && b.options == a.options
    && a.votes.0 <= b.votes.0 && a.votes.1 <= b.votes.1
    && (!a.isOpen ==> !b.isOpen && b.votes == a.votes)
  }

  /** What may change between two states: nothing is deleted, ids only grow, flags only go one way. */
  ghost predicate Evolves(s: State, s': State) {
    && s.lastStoryId <= s'.lastStoryId
    && s.lastDecisionId <= s'.lastDecisionId
    && (forall id :: id in s.stories ==> id in s'.stories && StoryEvolves(s.stories[id], s'.stories[id]))
    && (forall id :: id in s.storyOwners ==> id in s'.storyOwners && s'.storyOwners[id] == s.storyOwners[id])
    && (forall k :: k in s.chapters ==> k in s'.chapters && s'.chapters[k] == s.chapters[k])
    && (forall k :: k in s.plotDecisions ==> k in s'.plotDecisions && DecisionEvolves(s.plotDecisions[k], s'.plotDecisions[k]))
    && (forall k :: k in s'.plotDecisions && k.0 in s.stories && s.stories[k.0].isComplete ==> k in s.plotDecisions)
    && (forall k :: k in s.storyContributors && s.storyContributors[k] ==> k in s'.storyContributors && s'.storyContributors[k])
  }

  lemma EvolvesReflexive(s: State)
    ensures Evolves(s, s)
  {
  }

  lemma EvolvesTransitive(s: State, s': State, s'': State)
    requires Evolves(s, s') && Evolves(s', s'')
    ensures Evolves(s, s'')
  {
    forall k | k in s''.plotDecisions && k.0 in s.stories && s.stories[k.0].isComplete
      ensures k in s.plotDecisions
    {
      assert k.0 in s'.stories && s'.stories[k.0].isComplete;
    }
  }

  /** Every single call, whether it succeeds or fails, lets the state evolve only as Evolves allows. */
  lemma ApplyEvolves(s: State, c: Call)
    requires Valid(s)
    ensures Evolves(s, Apply(s, c))
  {
    match c
    case CreateStoryCall(sender, title) => CreateStoryEvolves(s, sender, title);
    case AddChapterCall(sender, storyId, content) => AddChapterEvolves(s, sender, storyId, content);
    case CreatePlotDecisionCall(storyId, a, b) => CreatePlotDecisionEvolves(s, storyId, a, b);
    case VoteOnPlotCall(storyId, decisionId, option) => VoteOnPlotEvolves(s, storyId, decisionId, option);
    case CloseVotingCall(sender, storyId, decisionId) => CloseVotingEvolves(s, sender, storyId, decisionId);
    case CompleteStoryCall(sender, storyId) => CompleteStoryEvolves(s, sender, storyId);
  }

  /** createStory adds exactly one story and its owner, under an id past every existing one, and leaves the existing stories as they were. */
  lemma CreateStoryEvolves(s: State, sender: Principal, title: string)
    requires StoriesDense(s)
    ensures var t := CreateStory(s, sender, title).state;
      && Evolves(s, t)
      && t.stories.Keys == s.stories.Keys + {s.lastStoryId + 1}
      && t.storyOwners.Keys == s.storyOwners.Keys + {s.lastStoryId + 1}
      && (forall id :: id in s.stories ==> t.stories[id] == s.stories[id])
  {
  }

  lemma AddChapterEvolves(s: State, sender: Principal, storyId: StoryId, content: string)
    requires ChaptersDense(s)
    ensures Evolves(s, AddChapter(s, sender, storyId, content).state)
  {
  }

  lemma CreatePlotDecisionEvolves(s: State, storyId: StoryId, optionA: string, optionB: string)
    requires DecisionsKeyed(s)
    ensures Evolves(s, CreatePlotDecision(s, storyId, optionA, optionB).state)
  {
  }

  lemma VoteOnPlotEvolves(s: State, storyId: StoryId, decisionId: DecisionId, option: int)
    ensures Evolves(s, VoteOnPlot(s, storyId, decisionId, option).state)
  {
    var key := (storyId, decisionId);
    if key in s.plotDecisions && s.plotDecisions[key].isOpen && (option == 0 || option == 1) {
      var d := s.plotDecisions[key];
      DecisionUpdateEvolves(s, key, d.(votes := CountVote(d.votes, option)));
    } else {
      EvolvesReflexive(s);
    }
  }

  /** closeVoting adds no decision and, in every decision, changes nothing but isOpen. */
  lemma CloseVotingEvolves(s: State, sender: Principal, storyId: StoryId, decisionId: DecisionId)
    ensures var t := CloseVoting(s, sender, storyId, decisionId).state;
      && Evolves(s, t)
      && t.plotDecisions.Keys == s.plotDecisions.Keys
      && (forall k :: k in s.plotDecisions ==>
            t.plotDecisions[k].options == s.plotDecisions[k].options && t.plotDecisions[k].votes == s.plotDecisions[k].votes)
  {
    var key := (storyId, decisionId);
    if sender == ContractOwner && key in s.plotDecisions {
      var d := s.plotDecisions[key];
      DecisionUpdateEvolves(s, key, d.(isOpen := false));
    } else {
      EvolvesReflexive(s);
    }
  }

  /** Replacing a decision by one that evolves from it, and adding none, is an evolution of the state with the same decision keys. */
  lemma DecisionUpdateEvolves(s: State, key: (StoryId, DecisionId), d: PlotDecision)
    requires key in s.plotDecisions && DecisionEvolves(s.plotDecisions[key], d)
    ensures var t := s.(plotDecisions := s.plotDecisions[key := d]);
      && Evolves(s, t)
      && t.plotDecisions.Keys == s.plotDecisions.Keys
  {
    var t := s.(plotDecisions := s.plotDecisions[key := d]);
    assert t.plotDecisions.Keys == s.plotDecisions.Keys;
    forall k | k in s.plotDecisions ensures k in t.plotDecisions && DecisionEvolves(s.plotDecisions[k], t.plotDecisions[k]) {
      if k != key {
        assert t.plotDecisions[k] == s.plotDecisions[k];
      }
    }
  }

  /** completeStory adds no story and, in every story, changes nothing but isComplete. */
  lemma CompleteStoryEvolves(s: State, sender: Principal, storyId: StoryId)
    ensures var t := CompleteStory(s, sender, storyId).state;
      && Evolves(s, t)
      && t.stories.Keys == s.stories.Keys
      && (forall id :: id in s.stories ==>
            t.stories[id].title == s.stories[id].title && t.stories[id].currentChapter == s.stories[id].currentChapter)
  {
    if sender == ContractOwner && storyId in s.stories {
      var story := s.stories[storyId];
      StoryUpdateEvolves(s, storyId, story.(isComplete := true));
    } else {
      EvolvesReflexive(s);
    }
  }

  /** Replacing a story by one that evolves from it, and adding none, is an evolution of the state with the same story keys. */
  lemma StoryUpdateEvolves(s: State, storyId: StoryId, story: Story)
    requires storyId in s.stories && StoryEvolves(s.stories[storyId], story)
    ensures var t := s.(stories := s.stories[storyId := story]);
      && Evolves(s, t)
      && t.stories.Keys == s.stories.Keys
  {
    var t := s.(stories := s.stories[storyId := story]);
    assert t.stories.Keys == s.stories.Keys;
    forall id | id in s.stories ensures id in t.stories && StoryEvolves(s.stories[id], t.stories[id]) {
      if id != storyId {
        assert t.stories[id] == s.stories[id];
      }
    }
  }

  /** Any sequence of calls from a valid state lets it evolve only as Evolves allows. */
  lemma {:induction false} RunEvolves(s: State, calls: seq<Call>)
    requires Valid(s)
    ensures Evolves(s, Run(s, calls))
    decreases |calls|
  {
    if calls == [] {
      EvolvesReflexive(s);
    } else {
      var s1 := Apply(s, calls[0]);
      ApplyEvolves(s, calls[0]);
      ApplyPreservesValid(s, calls[0]);
      RunEvolves(s1, calls[1..]);
      EvolvesTransitive(s, s1, Run(s1, calls[1..]));
    }
  }

  /** A chapter, once stored, survives any later calls unchanged. */
  lemma RunKeepsChapter(s: State, calls: seq<Call>, k: (StoryId, ChapterIndex))
    requires Valid(s) && k in s.chapters
    ensures k in Run(s, calls).chapters && Run(s, calls).chapters[k] == s.chapters[k]
  {
    RunEvolves(s, calls);
  }

  /** Once a story is complete, whatever is called later, addChapter and createPlotDecision on it fail with StoryComplete and change nothing. */
  lemma CompletedStoryStaysSealed(s: State, calls: seq<Call>, storyId: StoryId,
                                  sender: Principal, content: string, optionA: string, optionB: string)
    requires Valid(s)
    requires storyId in s.stories && s.stories[storyId].isComplete
    ensures var t := Run(s, calls);
      && AddChapter(t, sender, storyId, content) == Step(t, Err(StoryComplete))
      && CreatePlotDecision(t, storyId, optionA, optionB) == Step(t, Err(StoryComplete))
  {
    RunEvolves(s, calls);
  }

  /** Once a decision is closed, whatever is called later, every vote on it fails with DecisionClosed and its tallies stay fixed. */
  lemma ClosedDecisionStaysClosed(s: State, calls: seq<Call>, storyId: StoryId, decisionId: DecisionId, option: int)
    requires Valid(s)
    requires (storyId, decisionId) in s.plotDecisions && !s.plotDecisions[(storyId, decisionId)].isOpen
    ensures var t := Run(s, calls);
      && VoteOnPlot(t, storyId, decisionId, option) == Step(t, Err(DecisionClosed))
      && t.plotDecisions[(storyId, decisionId)].votes == s.plotDecisions[(storyId, decisionId)].votes
  {
    RunEvolves(s, calls);
  }

  // ---------------------------------------------------------------------------
  // Sequences of calls of one kind
  // ---------------------------------------------------------------------------

  /** One createStory call per (sender, title) pair, in order. */
  function CreateStoryCalls(requests: seq<(Principal, string)>): (calls: seq<Call>)
    ensures |calls| == |requests|
  {
    if requests == [] then [] else [CreateStoryCall(requests[0].0, requests[0].1)] + CreateStoryCalls(requests[1..])
  }

  lemma CreateStoryCallsUnfold(s: State, requests: seq<(Principal, string)>)
    requires requests != []
    ensures Run(s, CreateStoryCalls(requests))
         == Run(CreateStory(s, requests[0].0, requests[0].1).state, CreateStoryCalls(requests[1..]))
  {
    assert CreateStoryCalls(requests)[1..] == CreateStoryCalls(requests[1..]);
  }

  /** After n createStory calls the story counter has advanced by n and the decision counter has not moved. */
  lemma {:induction false} CreateStoriesCount(s: State, requests: seq<(Principal, string)>)
    ensures Run(s, CreateStoryCalls(requests)).lastStoryId == s.lastStoryId + |requests|
    ensures Run(s, CreateStoryCalls(requests)).lastDecisionId == s.lastDecisionId
    decreases |requests|
  {
    if requests != [] {
      CreateStoryCallsUnfold(s, requests);
      CreateStoriesCount(CreateStory(s, requests[0].0, requests[0].1).state, requests[1..]);
    }
  }

  /** createStory calls never touch a story, or an owner, numbered up to the old counter. */
  lemma {:induction false} CreateStoriesKeepEarlier(s: State, requests: seq<(Principal, string)>)
    ensures var t := Run(s, CreateStoryCalls(requests));
      && (forall id :: id in s.stories && id <= s.lastStoryId ==> id in t.stories && t.stories[id] == s.stories[id])
      && (forall id :: id in s.storyOwners && id <= s.lastStoryId ==> id in t.storyOwners && t.storyOwners[id] == s.storyOwners[id])
    decreases |requests|
  {
    if requests != [] {
      CreateStoryCallsUnfold(s, requests);
      CreateStoriesKeepEarlier(CreateStory(s, requests[0].0, requests[0].1).state, requests[1..]);
    }
  }

  /** After n createStory calls, story lastStoryId + i + 1 is the i-th request's, whoever sent it. */
  lemma {:induction false} CreateStoriesNumbered(s: State, requests: seq<(Principal, string)>)
    ensures var t := Run(s, CreateStoryCalls(requests));
      forall id: StoryId :: s.lastStoryId < id <= s.lastStoryId + |requests| ==>
        id in t.stories && t.stories[id] == Story(requests[id - s.lastStoryId - 1].1, 0, false)
    decreases |requests|
  {
    if requests != [] {
      var s1 := CreateStory(s, requests[0].0, requests[0].1).state;
      CreateStoryCallsUnfold(s, requests);
      CreateStoriesNumbered(s1, requests[1..]);
      CreateStoriesKeepEarlier(s1, requests[1..]);
      var t := Run(s1, CreateStoryCalls(requests[1..]));
      forall id: StoryId | s.lastStoryId < id <= s.lastStoryId + |requests|
        ensures id in t.stories && t.stories[id] == Story(requests[id - s.lastStoryId - 1].1, 0, false)
      {
        if id > s1.lastStoryId {
          assert requests[1..][id - s1.lastStoryId - 1] == requests[id - s.lastStoryId - 1];
        } else {
          assert id in s1.stories && s1.stories[id] == Story(requests[0].1, 0, false);
        }
      }
    }
  }

  /** After n createStory calls, the owner of story lastStoryId + i + 1 is the sender of the i-th request, and owners up to the old counter are untouched. */
  lemma {:induction false} CreateStoriesOwned(s: State, requests: seq<(Principal, string)>)
    ensures var t := Run(s, CreateStoryCalls(requests));
      && (forall id: StoryId :: s.lastStoryId < id <= s.lastStoryId + |requests| ==>
            id in t.storyOwners && t.storyOwners[id] == requests[id - s.lastStoryId - 1].0)
      && (forall id :: id in s.storyOwners && id <= s.lastStoryId ==> id in t.storyOwners && t.storyOwners[id] == s.storyOwners[id])
    decreases |requests|
  {
    if requests != [] {
      var s1 := CreateStory(s, requests[0].0, requests[0].1).state;
      CreateStoryCallsUnfold(s, requests);
      CreateStoriesOwned(s1, requests[1..]);
      var t := Run(s1, CreateStoryCalls(requests[1..]));
      forall id: StoryId | s.lastStoryId < id <= s.lastStoryId + |requests|
        ensures id in t.storyOwners && t.storyOwners[id] == requests[id - s.lastStoryId - 1].0
      {
        if id > s1.lastStoryId {
          assert requests[1..][id - s1.lastStoryId - 1] == requests[id - s.lastStoryId - 1];
        }
      }
    }
  }

  /** From a cleared state the k-th createStory call (counting from 0) returns id k + 1, whoever sends it. */
  lemma CreateStoryIdsFromCleared(requests: seq<(Principal, string)>, k: nat)
    requires k < |requests|
    ensures CreateStory(Run(Cleared(), CreateStoryCalls(requests[..k])), requests[k].0, requests[k].1).result == Ok(k + 1)
  {
    CreateStoriesCount(Cleared(), requests[..k]);
  }

  /** One addChapter call on `storyId` per (sender, content) pair, in order. */
  function AddChapterCalls(storyId: StoryId, entries: seq<(Principal, string)>): (calls: seq<Call>)
    ensures |calls| == |entries|
  {
    if entries == [] then [] else [AddChapterCall(entries[0].0, storyId, entries[0].1)] + AddChapterCalls(storyId, entries[1..])
  }

  lemma AddChapterCallsUnfold(s: State, storyId: StoryId, entries: seq<(Principal, string)>)
    requires entries != []
    ensures Run(s, AddChapterCalls(storyId, entries))
         == Run(AddChapter(s, entries[0].0, storyId, entries[0].1).state, AddChapterCalls(storyId, entries[1..]))
  {
    assert AddChapterCalls(storyId, entries)[1..] == AddChapterCalls(storyId, entries[1..]);
  }

  /** n addChapter calls on an open story advance it by n chapters and change nothing else in its record. */
  lemma {:induction false} AddChaptersAdvance(s: State, storyId: StoryId, entries: seq<(Principal, string)>)
    requires storyId in s.stories && !s.stories[storyId].isComplete
    ensures var t := Run(s, AddChapterCalls(storyId, entries));
      && storyId in t.stories
      && t.stories[storyId] == s.stories[storyId].(currentChapter := s.stories[storyId].currentChapter + |entries|)
    decreases |entries|
  {
    if entries != [] {
      AddChapterCallsUnfold(s, storyId, entries);
      AddChaptersAdvance(AddChapter(s, entries[0].0, storyId, entries[0].1).state, storyId, entries[1..]);
    }
  }

  /** addChapter calls on `storyId` never touch a chapter of another story, nor one of `storyId` up to its current chapter. */
  lemma {:induction false} AddChaptersKeep(s: State, storyId: StoryId, entries: seq<(Principal, string)>, k: (StoryId, ChapterIndex))
    requires storyId in s.stories && !s.stories[storyId].isComplete
    requires k in s.chapters && (k.0 != storyId || k.1 <= s.stories[storyId].currentChapter)
    ensures var t := Run(s, AddChapterCalls(storyId, entries));
      k in t.chapters && t.chapters[k] == s.chapters[k]
    decreases |entries|
  {
    if entries != [] {
      AddChapterCallsUnfold(s, storyId, entries);
      AddChaptersKeep(AddChapter(s, entries[0].0, storyId, entries[0].1).state, storyId, entries[1..], k);
    }
  }

  /** n addChapter calls on an open story store chapters currentChapter + 1 .. currentChapter + n, each with its own entry's content and author. */
  lemma {:induction false} AddChaptersStore(s: State, storyId: StoryId, entries: seq<(Principal, string)>)
    requires storyId in s.stories && !s.stories[storyId].isComplete
    ensures var t := Run(s, AddChapterCalls(storyId, entries));
      var c := s.stories[storyId].currentChapter;
      forall j: ChapterIndex :: c < j <= c + |entries| ==>
        (storyId, j) in t.chapters && t.chapters[(storyId, j)] == Chapter(entries[j - c - 1].1, entries[j - c - 1].0)
    decreases |entries|
  {
    if entries != [] {
      var c := s.stories[storyId].currentChapter;
      var s1 := AddChapter(s, entries[0].0, storyId, entries[0].1).state;
      AddChapterCallsUnfold(s, storyId, entries);
      AddChaptersStore(s1, storyId, entries[1..]);
      var t := Run(s1, AddChapterCalls(storyId, entries[1..]));
      forall j: ChapterIndex | c < j <= c + |entries|
        ensures (storyId, j) in t.chapters && t.chapters[(storyId, j)] == Chapter(entries[j - c - 1].1, entries[j - c - 1].0)
      {
        if j > c + 1 {
          assert entries[1..][j - (c + 1) - 1] == entries[j - c - 1];
        } else {
          AddChaptersKeep(s1, storyId, entries[1..], (storyId, j));
        }
      }
    }
  }

  /** n addChapter calls on an open story add no chapter keys but currentChapter + 1 .. currentChapter + n of that story. */
  lemma {:induction false} AddChaptersOnlyAppend(s: State, storyId: StoryId, entries: seq<(Principal, string)>)
    requires storyId in s.stories && !s.stories[storyId].isComplete
    ensures var t := Run(s, AddChapterCalls(storyId, entries));
      var c := s.stories[storyId].currentChapter;
      forall k :: k in t.chapters ==> k in s.chapters || (k.0 == storyId && c < k.1 <= c + |entries|)
    decreases |entries|
  {
    if entries != [] {
      AddChapterCallsUnfold(s, storyId, entries);
      AddChaptersOnlyAppend(AddChapter(s, entries[0].0, storyId, entries[0].1).state, storyId, entries[1..]);
    }
  }

  /** n addChapter calls on an open story mark the sender of each as a contributor with true, and keep every earlier mark, a true one as true. */
  lemma {:induction false} AddChaptersMark(s: State, storyId: StoryId, entries: seq<(Principal, string)>)
    requires storyId in s.stories && !s.stories[storyId].isComplete
    ensures var t := Run(s, AddChapterCalls(storyId, entries));
      && (forall k :: k in s.storyContributors ==> k in t.storyContributors)
      && (forall k :: k in s.storyContributors && s.storyContributors[k] ==> t.storyContributors[k])
      && (forall i :: 0 <= i < |entries| ==> (storyId, entries[i].0) in t.storyContributors && t.storyContributors[(storyId, entries[i].0)])
    decreases |entries|
  {
    if entries != [] {
      var s1 := AddChapter(s, entries[0].0, storyId, entries[0].1).state;
      AddChapterCallsUnfold(s, storyId, entries);
      AddChaptersMark(s1, storyId, entries[1..]);
      var t := Run(s1, AddChapterCalls(storyId, entries[1..]));
      forall j | 0 <= j < |entries| ensures (storyId, entries[j].0) in t.storyContributors && t.storyContributors[(storyId, entries[j].0)] {
        if j > 0 {
          assert entries[1..][j - 1] == entries[j];
        }
      }
    }
  }

  /** After n addChapter calls on a new story (open, at chapter 0, no chapters yet) its chapter keys are exactly 1..n; with AddChaptersAdvance it is then at chapter n. */
  lemma AddChaptersKeysExact(s: State, storyId: StoryId, entries: seq<(Principal, string)>)
    requires storyId in s.stories && s.stories[storyId].currentChapter == 0 && !s.stories[storyId].isComplete
    requires forall i :: (storyId, i) !in s.chapters
    ensures var t := Run(s, AddChapterCalls(storyId, entries));
      forall i :: (storyId, i) in t.chapters <==> 1 <= i <= |entries|
  {
    AddChaptersOnlyAppend(s, storyId, entries);
    AddChaptersStore(s, storyId, entries);
  }

  /** In a valid state a story just created has no chapters, so AddChaptersKeysExact applies to it. */
  lemma NewStoryHasNoChapters(s: State, sender: Principal, title: string)
    requires Valid(s)
    ensures var t := CreateStory(s, sender, title).state;
      var id := s.lastStoryId + 1;
      && id in t.stories && t.stories[id] == Story(title, 0, false)
      && (forall i :: (id, i) !in t.chapters)
  {
  }

  /** One voteOnPlot call on one decision per option, in order. */
  function VoteCalls(storyId: StoryId, decisionId: DecisionId, options: seq<int>): (calls: seq<Call>)
    ensures |calls| == |options|
  {
    if options == [] then [] else [VoteOnPlotCall(storyId, decisionId, options[0])] + VoteCalls(storyId, decisionId, options[1..])
  }

  lemma VoteCallsUnfold(s: State, storyId: StoryId, decisionId: DecisionId, options: seq<int>)
    requires options != []
    ensures Run(s, VoteCalls(storyId, decisionId, options))
         == Run(VoteOnPlot(s, storyId, decisionId, options[0]).state, VoteCalls(storyId, decisionId, options[1..]))
  {
    assert VoteCalls(storyId, decisionId, options)[1..] == VoteCalls(storyId, decisionId, options[1..]);
  }

  lemma MultisetHead(options: seq<int>, x: int)
    requires options != []
    ensures multiset(options)[x] == multiset(options[1..])[x] + (if options[0] == x then 1 else 0)
  {
    assert options == [options[0]] + options[1..];
  }

  /** On an open decision, the tallies grow by exactly the number of 0s and of 1s among the options voted; any other option is refused and counted nowhere, and nothing else changes. */
  lemma {:induction false} VotesCounted(s: State, storyId: StoryId, decisionId: DecisionId, options: seq<int>)
    requires (storyId, decisionId) in s.plotDecisions && s.plotDecisions[(storyId, decisionId)].isOpen
    ensures var key := (storyId, decisionId);
      var d := s.plotDecisions[key];
      Run(s, VoteCalls(storyId, decisionId, options))
        == s.(plotDecisions := s.plotDecisions[key := d.(votes := (d.votes.0 + multiset(options)[0], d.votes.1 + multiset(options)[1]))])
    decreases |options|
  {
    var key := (storyId, decisionId);
    var d := s.plotDecisions[key];
    if options == [] {
      assert s.plotDecisions[key := d] == s.plotDecisions;
    } else {
      var s1 := VoteOnPlot(s, storyId, decisionId, options[0]).state;
      var d1 := s1.plotDecisions[key];
      assert d1 == d.(votes := d1.votes);
      assert s1 == s.(plotDecisions := s.plotDecisions[key := d1]);
      assert d1.votes.0 == d.votes.0 + (if options[0] == 0 then 1 else 0);
      assert d1.votes.1 == d.votes.1 + (if options[0] == 1 then 1 else 0);
      VoteCallsUnfold(s, storyId, decisionId, options);
      VotesCounted(s1, storyId, decisionId, options[1..]);
      MultisetHead(options, 0);
      MultisetHead(options, 1);
      var w := (d.votes.0 + multiset(options)[0], d.votes.1 + multiset(options)[1]);
      assert s1.plotDecisions[key := d1.(votes := w)] == s.plotDecisions[key := d.(votes := w)];
    }
  }
}
