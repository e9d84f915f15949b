/**
 * The DAO governance component itself: its state fields, updated in place by
 * its handlers. Each handler takes the outcomes of the backend calls it
 * awaits and returns the calls it issued; its postcondition ties the new
 * state to the matching transition of module ViewState, whose properties
 * are proved there.
 */
module Component {
  import opened ViewState

  class GovernanceAgent {
    var proposals: seq<Proposal>
    var loading: bool
    var activeTab: Tab
    var newProposal: Draft
    var aiAnalysis: string
    var aiRecommendations: string
    var votingStats: VotingStats
    var selectedProposal: Option<int>

    /** All of the component's state, as a value. */
    function Snapshot(): View
      reads this
    {
      View(proposals, loading, activeTab, newProposal, aiAnalysis, aiRecommendations,
           votingStats, selectedProposal)
    }

    constructor ()
      ensures Snapshot() == INITIAL
    {
      proposals := [];
      loading := false;
      activeTab := ProposalsTab;
      newProposal := EMPTY_DRAFT;
      aiAnalysis := "";
      aiRecommendations := "";
      votingStats := VotingStats(0, 0, 0);
      selectedProposal := None;
    }

    method LoadProposals(fetched: Result<seq<Proposal>>) returns (issued: seq<Call>)
      modifies this
      ensures Step(Snapshot(), issued) == ViewState.LoadProposals(old(Snapshot()), fetched)
    {
      loading := true;
      issued := [Call(GetProposals, loading)];
      if fetched.Ok? {
        proposals := fetched.value;
      }
      loading := false;
    }

    method LoadVotingStats(fetched: Result<VotingStats>) returns (issued: seq<Call>)
      modifies this
      ensures Step(Snapshot(), issued) == ViewState.LoadVotingStats(old(Snapshot()), fetched)
    {
      issued := [Call(GetVotingStats, loading)];
      if fetched.Ok? {
        votingStats := fetched.value;
      }
    }

    /** The mount effect: load the proposals, then the statistics. */
    method Mount(fetchedProposals: Result<seq<Proposal>>, fetchedStats: Result<VotingStats>)
      returns (issued: seq<Call>)
      modifies this
      ensures Step(Snapshot(), issued) == ViewState.Mount(old(Snapshot()), fetchedProposals, fetchedStats)
    {
      var first := LoadProposals(fetchedProposals);
      var second := LoadVotingStats(fetchedStats);
      issued := first + second;
    }

    method HandleCreateProposal(created: Result<int>, reloaded: Result<seq<Proposal>>)
      returns (issued: seq<Call>)
      requires !loading
      modifies this
      ensures Step(Snapshot(), issued) == ViewState.HandleCreateProposal(old(Snapshot()), created, reloaded)
    {
      issued := [];
      if newProposal.title == "" || newProposal.description == "" || newProposal.proposer == "" {
        return;
      }
      loading := true;
      issued := [Call(CreateProposal(newProposal.title, newProposal.description, newProposal.proposer), loading)];
      if created.Ok? {
        newProposal := EMPTY_DRAFT;
        var reload := LoadProposals(reloaded);
        issued := issued + reload;
        activeTab := ProposalsTab;
      }
      loading := false;
    }

    method HandleVote(proposalId: int, voteChoice: bool, voted: Result<bool>, reloaded: Result<seq<Proposal>>)
      returns (issued: seq<Call>)
      requires !loading
      modifies this
      ensures Step(Snapshot(), issued) == ViewState.HandleVote(old(Snapshot()), proposalId, voteChoice, voted, reloaded)
    {
      loading := true;
      issued := [Call(Vote(proposalId, VOTER, voteChoice), loading)];
      if voted.Ok? {
        var reload := LoadProposals(reloaded);
        issued := issued + reload;
      }
      loading := false;
    }

    method HandleAnalyzeProposal(proposalId: int, analysis: Result<string>) returns (issued: seq<Call>)
      requires !loading
      modifies this
      ensures Step(Snapshot(), issued) == ViewState.HandleAnalyzeProposal(old(Snapshot()), proposalId, analysis)
    {
      loading := true;
      issued := [Call(AnalyzeProposal(proposalId), loading)];
      if analysis.Ok? {
        aiAnalysis := analysis.value;
        selectedProposal := Some(proposalId);
        activeTab := AnalysisTab;
      }
      loading := false;
    }

    method HandleGetRecommendations(recommendations: Result<string>) returns (issued: seq<Call>)
      modifies this
      ensures Step(Snapshot(), issued) == ViewState.HandleGetRecommendations(old(Snapshot()), recommendations)
    {
      loading := true;
      issued := [Call(GetGovernanceRecommendations, loading)];
      if recommendations.Ok? {
        aiRecommendations := recommendations.value;
        activeTab := RecommendationsTab;
      }
      loading := false;
    }

    /** A plain tab button. */
    method SetActiveTab(tab: PlainTab)
      modifies this
      ensures Snapshot() == ViewState.SetActiveTab(old(Snapshot()), tab).view
    {
      activeTab := tab;
    }

    method SetTitle(text: string)
      modifies this
      ensures Snapshot() == ViewState.SetTitle(old(Snapshot()), text).view
    {
      newProposal := newProposal.(title := text);
    }

    method SetDescription(text: string)
      modifies this
      ensures Snapshot() == ViewState.SetDescription(old(Snapshot()), text).view
    {
      newProposal := newProposal.(description := text);
    }

    method SetProposer(text: string)
      modifies this
      ensures Snapshot() == ViewState.SetProposer(old(Snapshot()), text).view
    {
      newProposal := newProposal.(proposer := text);
    }
  }

  /**
   * A client of the class: mounting against the seeded backend and then
   * voting "yes" on proposal 0 shows exactly the reload's tallies.
   */
  method MountThenVote(now: int, after: seq<Proposal>) returns (shown: seq<Proposal>, calls: seq<Call>)
    ensures shown == after
    ensures calls == [Call(GetProposals, true), Call(GetVotingStats, false),
                      Call(Vote(0, VOTER, true), true), Call(GetProposals, true)]
  {
    var agent := new GovernanceAgent();
    var mounted := agent.Mount(Ok(SeedProposals(now)), Ok(SEED_STATS));
    var voted := agent.HandleVote(0, true, Ok(true), Ok(after));
    shown := agent.proposals;
    calls := mounted + voted;
  }
}
