/**
 * The test cases of the contract, replayed on a fresh StoryContract each
 * (a fresh object stands for the tables cleared before every case); each
 * expectation of a case is an assert the verifier checks.
 */
module StoryWritingScenarios {
  import opened StoryWriting
  import opened StoryWritingContract

  method ShouldCreateANewStory() {
    var c := new StoryContract();
    var storyId := c.CreateStory("user1", "The Great Adventure");
    assert storyId == 1;
    assert c.stories[1] == Story("The Great Adventure", 0, false);
    assert c.storyOwners[1] == "user1";
  }

  method ShouldAddAChapterToAStory() {
    var c := new StoryContract();
    var storyId := c.CreateStory("user1", "The Great Adventure");
    var chapterId := c.AddChapter("user2", storyId, "It was a dark and stormy night...");
    assert chapterId == Ok(1);
    assert c.chapters[(storyId, 1)] == Chapter("It was a dark and stormy night...", "user2");
    assert c.storyContributors[(storyId, "user2")];
  }

  method ShouldCreateAPlotDecision() {
    var c := new StoryContract();
    var storyId := c.CreateStory("user1", "The Great Adventure");
    var decisionId := c.CreatePlotDecision(storyId, "Go left", "Go right");
    assert decisionId == Ok(1);
    assert c.plotDecisions[(storyId, 1)] == PlotDecision(("Go left", "Go right"), (0, 0), true);
  }

  method ShouldAllowVotingOnAPlotDecision() {
    var c := new StoryContract();
    var storyId := c.CreateStory("user1", "The Great Adventure");
    var decisionId := c.CreatePlotDecision(storyId, "Go left", "Go right");
    assert decisionId == Ok(1);
    var r := c.VoteOnPlot(storyId, 1, 0);
    assert r == Ok(()) && c.plotDecisions[(storyId, 1)] == PlotDecision(("Go left", "Go right"), (1, 0), true);
    r := c.VoteOnPlot(storyId, 1, 1);
    assert r == Ok(()) && c.plotDecisions[(storyId, 1)] == PlotDecision(("Go left", "Go right"), (1, 1), true);
    r := c.VoteOnPlot(storyId, 1, 0);
    assert r == Ok(());
    assert c.plotDecisions[(storyId, 1)].votes == (2, 1);
  }

  method ShouldCloseVotingOnAPlotDecision() {
    var c := new StoryContract();
    var storyId := c.CreateStory("user1", "The Great Adventure");
    var decisionId := c.CreatePlotDecision(storyId, "Go left", "Go right");
    assert decisionId == Ok(1);
    var r := c.CloseVoting("contract-owner", storyId, 1);
    assert r == Ok(());
    assert !c.plotDecisions[(storyId, 1)].isOpen;
  }

  method ShouldCompleteAStory() {
    var c := new StoryContract();
    var storyId := c.CreateStory("user1", "The Great Adventure");
    var r := c.CompleteStory("contract-owner", storyId);
    assert r == Ok(());
    assert c.stories[storyId].isComplete;
  }

  method ShouldNotAllowAddingChaptersToACompletedStory() {
    var c := new StoryContract();
    var storyId := c.CreateStory("user1", "The Great Adventure");
    var r := c.CompleteStory("contract-owner", storyId);
    assert r == Ok(());
    ghost var before := c.Snapshot();
    var rejected := c.AddChapter("user2", storyId, "This should fail");
    assert rejected == Err(StoryComplete);
    assert c.Snapshot() == before;
  }
  /** A whole story: written, voted on, closed and sealed, after which no chapter is accepted. */
  method StoryLifecycle() {
    var c := new StoryContract();
    var storyId := c.CreateStory("u1", "Adventure");
    assert storyId == 1 && c.stories[1] == Story("Adventure", 0, false);
    var chapterId := c.AddChapter("u2", 1, "dark night");
    assert chapterId == Ok(1) && c.storyContributors[(1, "u2")];
    var decisionId := c.CreatePlotDecision(1, "left", "right");
    assert decisionId == Ok(1) && c.plotDecisions[(1, 1)] == PlotDecision(("left", "right"), (0, 0), true);
    VoteTwiceForFirst(c);
    assert c.plotDecisions[(1, 1)].votes == (2, 1);
    CloseAndSeal(c);
  }

  /** Two votes for option 0 and one for option 1 on decision (1, 1). */
  method VoteTwiceForFirst(c: StoryContract)
    requires c.Valid() && (1, 1) in c.plotDecisions && c.plotDecisions[(1, 1)] == PlotDecision(("left", "right"), (0, 0), true)
    modifies c
    ensures c.Valid() && c.stories == old(c.stories)
    ensures (1, 1) in c.plotDecisions && c.plotDecisions[(1, 1)] == PlotDecision(("left", "right"), (2, 1), true)
  {
    var r := c.VoteOnPlot(1, 1, 0);
    assert r == Ok(()) && c.plotDecisions[(1, 1)].votes == (1, 0);
    r := c.VoteOnPlot(1, 1, 0);
    assert r == Ok(()) && c.plotDecisions[(1, 1)].votes == (2, 0);
    r := c.VoteOnPlot(1, 1, 1);
    assert r == Ok(());
  }

  /** The owner closes decision (1, 1) and completes story 1, which then refuses a chapter. */
  method CloseAndSeal(c: StoryContract)
    requires c.Valid() && 1 in c.stories && !c.stories[1].isComplete && (1, 1) in c.plotDecisions
    modifies c
  {
    var r := c.CloseVoting(ContractOwner, 1, 1);
    assert r == Ok(()) && !c.plotDecisions[(1, 1)].isOpen;
    r := c.CompleteStory(ContractOwner, 1);
    assert r == Ok(()) && c.stories[1].isComplete;
    var rejected := c.AddChapter("u3", 1, "epilogue");
    assert rejected == Err(StoryComplete);
  }
}
