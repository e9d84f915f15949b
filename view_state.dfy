/**
 * The governance component's view state and what each of its handlers does
 * to it, as pure transition functions. A handler's backend calls are not
 * made here: each call's outcome is an argument (`Ok` for a resolved call,
 * `Err` for one that threw), and each transition also lists the calls it
 * issued, together with the `loading` flag at the moment it awaited them.
 */
module ViewState {

  datatype Option<T> = None | Some(value: T)

  /** How a backend call settled: resolved with a value, or threw. */
  datatype Result<T> = Ok(value: T) | Err(error: string)

  datatype Proposal = Proposal(
    id: int,
    title: string,
    description: string,
    proposer: string,
    votesFor: int,
    votesAgainst: int,
    status: string,
    timestamp: int)

  datatype VotingStats = VotingStats(totalProposals: int, activeProposals: int, totalVotes: int)

  /** The create form's three fields. */
  datatype Draft = Draft(title: string, description: string, proposer: string)

  const EMPTY_DRAFT := Draft("", "", "")

  /** The four tabs: 'proposals', 'create', 'ai-recommendations', 'ai-analysis'. */
  datatype Tab = ProposalsTab | CreateTab | RecommendationsTab | AnalysisTab

  /** The tabs a plain tab button selects; the recommendations tab is only reached by loading recommendations. */
  type PlainTab = t: Tab | t != RecommendationsTab witness ProposalsTab

  /** The component's state fields, in declaration order. */
  datatype View = View(
    proposals: seq<Proposal>,
    loading: bool,
    activeTab: Tab,
    newProposal: Draft,
    aiAnalysis: string,
    aiRecommendations: string,
    votingStats: VotingStats,
    selectedProposal: Option<int>)

  /** The state on first render. */
  const INITIAL := View([], false, ProposalsTab, EMPTY_DRAFT, "", "", VotingStats(0, 0, 0), None)

  /** The identity every vote is cast under. */
  const VOTER := "current-user.icp"

  /** The backend operations the component calls. */
  datatype Request =
    | GetProposals
    | GetVotingStats
    | CreateProposal(title: string, description: string, proposer: string)
    | Vote(proposalId: int, voter: string, voteChoice: bool)
    | AnalyzeProposal(proposalId: int)
    | GetGovernanceRecommendations

  /** A backend call, with whether `loading` was set while it was awaited. */
  datatype Call = Call(request: Request, whileLoading: bool)

  /** The state after a handler, and the calls it issued in order. */
  datatype Step = Step(view: View, issued: seq<Call>)

  function LoadProposals(v: View, fetched: Result<seq<Proposal>>): Step {
    var busy := v.(loading := true);
    var loaded := if fetched.Ok? then busy.(proposals := fetched.value) else busy;
    Step(loaded.(loading := false), [Call(GetProposals, true)])
  }

  function LoadVotingStats(v: View, fetched: Result<VotingStats>): Step {
    var loaded := if fetched.Ok? then v.(votingStats := fetched.value) else v;
    Step(loaded, [Call(GetVotingStats, v.loading)])
  }

  /** The mount effect: proposals first, then the statistics. */
  function Mount(v: View, proposals: Result<seq<Proposal>>, stats: Result<VotingStats>): Step {
    var first := LoadProposals(v, proposals);
    var second := LoadVotingStats(first.view, stats);
    Step(second.view, first.issued + second.issued)
  }

  predicate DraftComplete(d: Draft) {
    d.title != "" && d.description != "" && d.proposer != ""
  }

  function HandleCreateProposal(v: View, created: Result<int>, reloaded: Result<seq<Proposal>>): Step {
    var d := v.newProposal;
    if !DraftComplete(d) then Step(v, [])
    else
      var submit := Call(CreateProposal(d.title, d.description, d.proposer), true);
      var busy := v.(loading := true);
      if created.Err? then Step(busy.(loading := false), [submit])
      else
        var reload := LoadProposals(busy.(newProposal := EMPTY_DRAFT), reloaded);
        Step(reload.view.(activeTab := ProposalsTab, loading := false), [submit] + reload.issued)
  }

  function HandleVote(v: View, proposalId: int, voteChoice: bool,
                      voted: Result<bool>, reloaded: Result<seq<Proposal>>): Step
  {
    var cast := Call(Vote(proposalId, VOTER, voteChoice), true);
    var busy := v.(loading := true);
    if voted.Err? then Step(busy.(loading := false), [cast])
    else
      var reload := LoadProposals(busy, reloaded);
      Step(reload.view.(loading := false), [cast] + reload.issued)
  }

  function HandleAnalyzeProposal(v: View, proposalId: int, analysis: Result<string>): Step {
    var busy := v.(loading := true);
    var shown :=
      if analysis.Ok? then
        busy.(aiAnalysis := analysis.value, selectedProposal := Some(proposalId), activeTab := AnalysisTab)
      else busy;
    Step(shown.(loading := false), [Call(AnalyzeProposal(proposalId), true)])
  }

  function HandleGetRecommendations(v: View, recommendations: Result<string>): Step {
    var busy := v.(loading := true);
    var shown :=
      if recommendations.Ok? then
        busy.(aiRecommendations := recommendations.value, activeTab := RecommendationsTab)
      else busy;
    Step(shown.(loading := false), [Call(GetGovernanceRecommendations, true)])
  }

  function SetActiveTab(v: View, tab: PlainTab): Step {
    Step(v.(activeTab := tab), [])
  }

  function SetTitle(v: View, text: string): Step {
    Step(v.(newProposal := v.newProposal.(title := text)), [])
  }

  function SetDescription(v: View, text: string): Step {
    Step(v.(newProposal := v.newProposal.(description := text)), [])
  }

  function SetProposer(v: View, text: string): Step {
    Step(v.(newProposal := v.newProposal.(proposer := text)), [])
  }

  // ---------------------------------------------------------------------
  // One handler at a time

  /** A successful load shows exactly the backend's list, in its order; a failed one keeps the old list. */
  lemma LoadProposalsReplacesWholesale(v: View, fetched: Result<seq<Proposal>>)
    ensures var s := LoadProposals(v, fetched);
      && s.view.proposals == (if fetched.Ok? then fetched.value else v.proposals)
      && s.view == v.(proposals := s.view.proposals, loading := false)
      && s.issued == [Call(GetProposals, true)]
  {
  }

  /** The statistics load replaces the statistics wholesale and never touches `loading`; repeating it changes nothing. */
  lemma LoadVotingStatsReplacesWholesale(v: View, fetched: Result<VotingStats>)
    ensures var s := LoadVotingStats(v, fetched);
      && s.view == (if fetched.Ok? then v.(votingStats := fetched.value) else v)
      && s.view.loading == v.loading
      && LoadVotingStats(s.view, fetched).view == s.view
  {
  }

  /** With any field of the draft empty, creating does nothing at all and calls nothing. */
  lemma CreateNeedsEveryField(v: View, created: Result<int>, reloaded: Result<seq<Proposal>>)
    requires v.newProposal.title == "" || v.newProposal.description == "" || v.newProposal.proposer == ""
    ensures HandleCreateProposal(v, created, reloaded) == Step(v, [])
  {
  }

  /**
   * A successful create clears the draft and returns to the proposals tab,
   * whether or not the reload after it succeeds; the list shown is the
   * reload's, or the old one when the reload failed.
   */
  lemma CreateSuccessResetsDraft(v: View, created: Result<int>, reloaded: Result<seq<Proposal>>)
    requires DraftComplete(v.newProposal) && created.Ok?
    ensures var s := HandleCreateProposal(v, created, reloaded);
      && s.view.newProposal == EMPTY_DRAFT
      && s.view.activeTab == ProposalsTab
      && !s.view.loading
      && s.view.proposals == (if reloaded.Ok? then reloaded.value else v.proposals)
      && s.view == v.(newProposal := EMPTY_DRAFT, activeTab := ProposalsTab, loading := false,
                      proposals := s.view.proposals)
      && s.issued == [Call(CreateProposal(v.newProposal.title, v.newProposal.description, v.newProposal.proposer), true),
                      Call(GetProposals, true)]
  {
  }

  /** A create the backend rejects changes nothing but `loading`, and triggers no reload. */
  lemma CreateFailureKeepsState(v: View, created: Result<int>, reloaded: Result<seq<Proposal>>)
    requires DraftComplete(v.newProposal) && created.Err?
    ensures var s := HandleCreateProposal(v, created, reloaded);
      && s.view == v.(loading := false)
      && |s.issued| == 1 && s.issued[0].request.CreateProposal?
  {
  }

  /**
   * After a vote the tallies are exactly what the reload returned, never a
   * local increment; a vote the backend rejects triggers no reload.
   */
  lemma VoteShowsAuthoritativeTallies(v: View, proposalId: int, voteChoice: bool,
                                      voted: Result<bool>, reloaded: Result<seq<Proposal>>)
    ensures var s := HandleVote(v, proposalId, voteChoice, voted, reloaded);
      && s.view.proposals == (if voted.Ok? && reloaded.Ok? then reloaded.value else v.proposals)
      && s.view == v.(proposals := s.view.proposals, loading := false)
      && s.issued == [Call(Vote(proposalId, VOTER, voteChoice), true)]
                     + (if voted.Ok? then [Call(GetProposals, true)] else [])
  {
  }

  /** A successful analysis shows its text for that proposal on the analysis tab; a failed one leaves all three as they were. */
  lemma AnalyzeShowsAnalysis(v: View, proposalId: int, analysis: Result<string>)
    ensures var s := HandleAnalyzeProposal(v, proposalId, analysis);
      && (analysis.Ok? ==>
            s.view == v.(aiAnalysis := analysis.value, selectedProposal := Some(proposalId),
                         activeTab := AnalysisTab, loading := false))
      && (analysis.Err? ==> s.view == v.(loading := false))
      && s.issued == [Call(AnalyzeProposal(proposalId), true)]
  {
  }

  /** Successful recommendations are shown on their own tab; failed ones change nothing but `loading`. */
  lemma RecommendationsShown(v: View, recommendations: Result<string>)
    ensures var s := HandleGetRecommendations(v, recommendations);
      && (recommendations.Ok? ==>
            s.view == v.(aiRecommendations := recommendations.value, activeTab := RecommendationsTab,
                         loading := false))
      && (recommendations.Err? ==> s.view == v.(loading := false))
      && s.issued == [Call(GetGovernanceRecommendations, true)]
  {
  }

  // ---------------------------------------------------------------------
  // Sessions: the user's clicks and keystrokes, one after another

  /** A user event after mounting, carrying the outcomes of the backend calls it leads to. */
  datatype Action =
    | TabClicked(tab: PlainTab)
    | TitleTyped(text: string)
    | DescriptionTyped(text: string)
    | ProposerTyped(text: string)
    | CreateClicked(created: Result<int>, reloaded: Result<seq<Proposal>>)
    | VoteClicked(proposalId: int, voteChoice: bool, voted: Result<bool>, reloaded: Result<seq<Proposal>>)
    | AnalyzeClicked(proposalId: int, analysis: Result<string>)
    | RecommendationsClicked(recommendations: Result<string>)

  /** Some proposal in the list carries this id. */
  predicate Listed(ps: seq<Proposal>, proposalId: int) {
    exists i :: 0 <= i < |ps| && ps[i].id == proposalId
  }

  /**
   * Whether the page offers the event in this state: the form and its button
   * only on the create tab, the vote and analyze buttons only on the
   * proposals tab and only for the proposals listed there, and those three
   * buttons only while idle. The four tab buttons are always there.
   */
  predicate Offered(v: View, a: Action) {
    match a
    case TabClicked(_) => true
    case RecommendationsClicked(_) => true
    case TitleTyped(_) => v.activeTab == CreateTab
    case DescriptionTyped(_) => v.activeTab == CreateTab
    case ProposerTyped(_) => v.activeTab == CreateTab
    case CreateClicked(_, _) => v.activeTab == CreateTab && !v.loading
    case VoteClicked(id, _, _, _) => v.activeTab == ProposalsTab && Listed(v.proposals, id) && !v.loading
    case AnalyzeClicked(id, _) => v.activeTab == ProposalsTab && Listed(v.proposals, id) && !v.loading
  }

  /** One event: an event the page does not offer (hidden or disabled) does nothing. */
  function Apply(v: View, a: Action): Step {
    if !Offered(v, a) then Step(v, [])
    else
      match a
      case TabClicked(tab) => SetActiveTab(v, tab)
      case TitleTyped(text) => SetTitle(v, text)
      case DescriptionTyped(text) => SetDescription(v, text)
      case ProposerTyped(text) => SetProposer(v, text)
      case CreateClicked(created, reloaded) => HandleCreateProposal(v, created, reloaded)
      case VoteClicked(id, choice, voted, reloaded) => HandleVote(v, id, choice, voted, reloaded)
      case AnalyzeClicked(id, analysis) => HandleAnalyzeProposal(v, id, analysis)
      case RecommendationsClicked(recommendations) => HandleGetRecommendations(v, recommendations)
  }

  function Run(v: View, actions: seq<Action>): Step
    decreases |actions|
  {
    if actions == [] then Step(v, [])
    else
      var first := Apply(v, actions[0]);
      var rest := Run(first.view, actions[1..]);
      Step(rest.view, first.issued + rest.issued)
  }

  /** A whole session: the component mounts once, then the user's events follow. */
  function Session(proposals: Result<seq<Proposal>>, stats: Result<VotingStats>, actions: seq<Action>): Step {
    var mounted := Mount(INITIAL, proposals, stats);
    var rest := Run(mounted.view, actions);
    Step(rest.view, mounted.issued + rest.issued)
  }

  /** Every list of proposals a backend reply in `actions` carries. */
  function ProposalReplies(actions: seq<Action>): set<seq<Proposal>>
    decreases |actions|
  {
    if actions == [] then {}
    else
      var a := actions[0];
      var here :=
        match a
        case CreateClicked(_, r) => if r.Ok? then {r.value} else {}
        case VoteClicked(_, _, _, r) => if r.Ok? then {r.value} else {}
        case _ => {};
      here + ProposalReplies(actions[1..])
  }

  /** Every event leaves the component idle, except the ones that never touch `loading`. */
  lemma ApplyEndsIdle(v: View, a: Action)
    ensures Apply(v, a).view.loading ==> v.loading
  {
  }

  /** Busy gate: a session that starts idle is idle after every event. */
  lemma {:induction false} RunEndsIdle(v: View, actions: seq<Action>)
    requires !v.loading
    ensures !Run(v, actions).view.loading
    decreases |actions|
  {
    if actions != [] {
      ApplyEndsIdle(v, actions[0]);
      RunEndsIdle(Apply(v, actions[0]).view, actions[1..]);
    }
  }

  /** Every call a user event issues is awaited with `loading` set, and none is the statistics load. */
  lemma ApplyAwaitsWhileLoading(v: View, a: Action)
    ensures forall c :: c in Apply(v, a).issued ==> c.whileLoading && c.request != GetVotingStats
  {
  }

  /** The same over any run of user events: only the mount loads the statistics. */
  lemma {:induction false} RunAwaitsWhileLoading(v: View, actions: seq<Action>)
    ensures forall c :: c in Run(v, actions).issued ==> c.whileLoading && c.request != GetVotingStats
    decreases |actions|
  {
    if actions != [] {
      var first := Apply(v, actions[0]);
      ApplyAwaitsWhileLoading(v, actions[0]);
      RunAwaitsWhileLoading(first.view, actions[1..]);
    }
  }

  /**
   * Over a whole session, `loading` is set exactly while a call other than the
   * statistics load is awaited, and the component is idle at the end.
   */
  lemma SessionAwaitsWhileLoading(proposals: Result<seq<Proposal>>, stats: Result<VotingStats>,
                                  actions: seq<Action>)
    ensures var s := Session(proposals, stats, actions);
      && !s.view.loading
      && forall c :: c in s.issued ==> (c.whileLoading <==> c.request != GetVotingStats)
  {
    var mounted := Mount(INITIAL, proposals, stats);
    RunEndsIdle(mounted.view, actions);
    RunAwaitsWhileLoading(mounted.view, actions);
  }

  /** A vote or an analysis is only ever requested for a proposal the list showed, from the proposals tab. */
  lemma OnlyListedProposalsActedOn(v: View, a: Action)
    ensures forall c :: c in Apply(v, a).issued && (c.request.Vote? || c.request.AnalyzeProposal?) ==>
      v.activeTab == ProposalsTab && Listed(v.proposals, c.request.proposalId)
  {
  }

  /** Typing into the form and creating only happen on the create tab. */
  lemma DraftOnlyOnCreateTab(v: View, a: Action)
    requires a.TitleTyped? || a.DescriptionTyped? || a.ProposerTyped? || a.CreateClicked?
    requires v.activeTab != CreateTab
    ensures Apply(v, a) == Step(v, [])
  {
  }

  /** The list shown after one event is the old one or one the backend sent in that event. */
  lemma ApplyShowsReply(v: View, a: Action)
    ensures Apply(v, a).view.proposals in {v.proposals} + ProposalReplies([a])
  {
  }

  /**
   * The client never edits proposals itself: the list shown after any session
   * is the one it started with or one that a backend reply carried.
   */
  lemma {:induction false} ProposalsComeFromBackend(v: View, actions: seq<Action>)
    ensures Run(v, actions).view.proposals in {v.proposals} + ProposalReplies(actions)
    decreases |actions|
  {
    if actions != [] {
      var first := Apply(v, actions[0]);
      ApplyShowsReply(v, actions[0]);
      ProposalsComeFromBackend(first.view, actions[1..]);
      assert ProposalReplies(actions) == ProposalReplies([actions[0]]) + ProposalReplies(actions[1..]);
    }
  }

  /** Over a whole session, the list shown is the empty initial one or one that a backend reply carried. */
  lemma SessionShowsOnlyReplies(proposals: Result<seq<Proposal>>, stats: Result<VotingStats>,
                                actions: seq<Action>)
    ensures var shown := Session(proposals, stats, actions).view.proposals;
      || shown == []
      || (proposals.Ok? && shown == proposals.value)
      || shown in ProposalReplies(actions)
  {
    ProposalsComeFromBackend(Mount(INITIAL, proposals, stats).view, actions);
  }

  predicate TalliesNonNegative(ps: seq<Proposal>) {
    forall i :: 0 <= i < |ps| ==> ps[i].votesFor >= 0 && ps[i].votesAgainst >= 0
  }

  /** When the backend only ever sends non-negative tallies, no session shows a negative one. */
  lemma TalliesStayNonNegative(v: View, actions: seq<Action>)
    requires TalliesNonNegative(v.proposals)
    requires forall ps :: ps in ProposalReplies(actions) ==> TalliesNonNegative(ps)
    ensures TalliesNonNegative(Run(v, actions).view.proposals)
  {
    ProposalsComeFromBackend(v, actions);
  }

  // ---------------------------------------------------------------------
  // The backend's seeded data, as a fixture

  function SeedProposals(now: int): seq<Proposal> {
    [ Proposal(0, "Increase Treasury Allocation for Development",
               "Proposal to allocate 50,000 ICP tokens from treasury for dApp development grants",
               "alice.icp", 15, 3, "active", now - 86_400_000),
      Proposal(1, "Implement New Governance Token Distribution",
               "Change the token distribution mechanism to reward long-term holders",
               "bob.icp", 8, 12, "active", now - 172_800_000) ]
  }

  const SEED_STATS := VotingStats(2, 2, 38)

  /** After mounting against the seeded backend, both proposals and the statistics are shown verbatim. */
  lemma MountShowsSeed(now: int)
    ensures var s := Mount(INITIAL, Ok(SeedProposals(now)), Ok(SEED_STATS));
      && s.view.proposals == SeedProposals(now)
      && s.view.proposals[0].votesFor == 15 && s.view.proposals[0].votesAgainst == 3
      && s.view.proposals[1].votesFor == 8 && s.view.proposals[1].votesAgainst == 12
      && s.view.votingStats == VotingStats(2, 2, 38)
      && !s.view.loading
      && s.issued == [Call(GetProposals, true), Call(GetVotingStats, false)]
  {
  }

  /** A "yes" on proposal 0 issues one vote and one reload, and shows the reload's tallies. */
  lemma VoteYesOnSeed(now: int, after: seq<Proposal>)
    ensures var mounted := Mount(INITIAL, Ok(SeedProposals(now)), Ok(SEED_STATS)).view;
      var s := Apply(mounted, VoteClicked(0, true, Ok(true), Ok(after)));
      && s.issued == [Call(Vote(0, VOTER, true), true), Call(GetProposals, true)]
      && s.view.proposals == after
  {
    var mounted := Mount(INITIAL, Ok(SeedProposals(now)), Ok(SEED_STATS)).view;
    assert mounted.proposals[0].id == 0;
  }

  /** A failed analysis leaves the earlier analysis and the current tab in place. */
  lemma FailedAnalysisKeepsEarlierOne(v: View, proposalId: int, error: string)
    ensures var s := Apply(v, AnalyzeClicked(proposalId, Err(error)));
      s.view.aiAnalysis == v.aiAnalysis && s.view.activeTab == v.activeTab
      && s.view.selectedProposal == v.selectedProposal
  {
  }
}
