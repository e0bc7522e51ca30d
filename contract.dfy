/**
 * The contract as an object: its fields are the five tables and the two id
 * counters, and each of the six operations updates them in place. Every
 * method is proved to leave the object in the state, and return the result,
 * that the matching function of module StoryWriting computes from the old
 * state, and to keep the invariant StoryWriting.Valid.
 */
module StoryWritingContract {
  import opened StoryWriting
  import StoryWritingProofs

  class StoryContract {
    var stories: map<StoryId, Story>
    var chapters: map<(StoryId, ChapterIndex), Chapter>
    var plotDecisions: map<(StoryId, DecisionId), PlotDecision>
    var storyContributors: map<(StoryId, Principal), bool>
    var storyOwners: map<StoryId, Principal>
    var lastStoryId: nat
    var lastDecisionId: nat

    /** The fields, as one value. */
    function Snapshot(): State
      reads this
    {
      State(stories, chapters, plotDecisions, storyContributors, storyOwners, lastStoryId, lastDecisionId)
    }

    ghost predicate Valid()
      reads this
    {
      StoryWriting.Valid(Snapshot())
    }

    /** A contract with every table empty and both counters at zero. */
    constructor ()
      ensures Snapshot() == Cleared()
      ensures Valid()
    {
      stories, chapters, plotDecisions, storyContributors, storyOwners := map[], map[], map[], map[], map[];
      lastStoryId, lastDecisionId := 0, 0;
      StoryWritingProofs.ClearedValid();
    }

    method CreateStory(sender: Principal, title: string) returns (id: StoryId)
      requires Valid()
      modifies this
      ensures Valid()
      ensures Step(Snapshot(), Ok(id)) == StoryWriting.CreateStory(old(Snapshot()), sender, title)
    {
      lastStoryId := lastStoryId + 1;
      id := lastStoryId;
      stories := stories[id := Story(title, 0, false)];
      storyOwners := storyOwners[id := sender];
      StoryWritingProofs.CreateStoryPreservesValid(old(Snapshot()), sender, title);
    }

    method AddChapter(sender: Principal, storyId: StoryId, content: string) returns (r: Result<ChapterIndex>)
      requires Valid()
      modifies this
      ensures Valid()
      ensures Step(Snapshot(), r) == StoryWriting.AddChapter(old(Snapshot()), sender, storyId, content)
    {
      if storyId !in stories {
        return Err(NotFound);
      }
      var story := stories[storyId];
      if story.isComplete {
        return Err(StoryComplete);
      }
      var newChapterId := story.currentChapter + 1;
      chapters := chapters[(storyId, newChapterId) := Chapter(content, sender)];
      stories := stories[storyId := story.(currentChapter := newChapterId)];
      storyContributors := storyContributors[(storyId, sender) := true];
      r := Ok(newChapterId);
      StoryWritingProofs.AddChapterPreservesValid(old(Snapshot()), sender, storyId, content);
    }

    method CreatePlotDecision(storyId: StoryId, optionA: string, optionB: string) returns (r: Result<DecisionId>)
      requires Valid()
      modifies this
      ensures Valid()
      ensures Step(Snapshot(), r) == StoryWriting.CreatePlotDecision(old(Snapshot()), storyId, optionA, optionB)
    {
      if storyId !in stories {
        return Err(NotFound);
      }
      if stories[storyId].isComplete {
        return Err(StoryComplete);
      }
      lastDecisionId := lastDecisionId + 1;
      var newDecisionId := lastDecisionId;
      plotDecisions := plotDecisions[(storyId, newDecisionId) := PlotDecision((optionA, optionB), (0, 0), true)];
      r := Ok(newDecisionId);
      StoryWritingProofs.CreatePlotDecisionPreservesValid(old(Snapshot()), storyId, optionA, optionB);
    }

    method VoteOnPlot(storyId: StoryId, decisionId: DecisionId, option: int) returns (r: Result<()>)
      requires Valid()
      modifies this
      ensures Valid()
      ensures Step(Snapshot(), r) == StoryWriting.VoteOnPlot(old(Snapshot()), storyId, decisionId, option)
    {
      var key := (storyId, decisionId);
      if key !in plotDecisions {
        return Err(NotFound);
      }
      var decision := plotDecisions[key];
      if !decision.isOpen {
        return Err(DecisionClosed);
      }
      if option != 0 && option != 1 {
        return Err(InvalidOption);
      }
      plotDecisions := plotDecisions[key := decision.(votes := CountVote(decision.votes, option))];
      r := Ok(());
      StoryWritingProofs.VoteOnPlotPreservesValid(old(Snapshot()), storyId, decisionId, option);
    }

    method CloseVoting(sender: Principal, storyId: StoryId, decisionId: DecisionId) returns (r: Result<()>)
      requires Valid()
      modifies this
      ensures Valid()
      ensures Step(Snapshot(), r) == StoryWriting.CloseVoting(old(Snapshot()), sender, storyId, decisionId)
    {
      if sender != ContractOwner {
        return Err(Unauthorized);
      }
      var key := (storyId, decisionId);
      if key !in plotDecisions {
        return Err(NotFound);
      }
      plotDecisions := plotDecisions[key := plotDecisions[key].(isOpen := false)];
      r := Ok(());
      StoryWritingProofs.CloseVotingPreservesValid(old(Snapshot()), sender, storyId, decisionId);
    }

    method CompleteStory(sender: Principal, storyId: StoryId) returns (r: Result<()>)
      requires Valid()
      modifies this
      ensures Valid()
      ensures Step(Snapshot(), r) == StoryWriting.CompleteStory(old(Snapshot()), sender, storyId)
    {
      if sender != ContractOwner {
        return Err(Unauthorized);
      }
      if storyId !in stories {
        return Err(NotFound);
      }
      stories := stories[storyId := stories[storyId].(isComplete := true)];
      r := Ok(());
      StoryWritingProofs.CompleteStoryPreservesValid(old(Snapshot()), sender, storyId);
    }
  }
}
