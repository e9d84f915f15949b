# DAO governance agent: view state and relative-time label

A model of the single React component `DAOGovernanceAgent` in
`frontend/src/main.jsx`: a client where members list governance proposals,
vote yes or no, create proposals and ask an AI service for an analysis of a
proposal or for general recommendations.

The component has two parts worth modelling:

- **The view-state machine** (`view_state.dfy`, `component.dfy`). The
  component's eight state fields are `proposals`, `loading`, `activeTab`,
  `newProposal`, `aiAnalysis`, `aiRecommendations`, `votingStats` and
  `selectedProposal`. They become the fields of class
  `Component.GovernanceAgent`. Its handlers are methods that update those
  fields step by step, as the source does: set `loading`, await the backend,
  replace whole fields on success, keep them on failure, clear `loading`.
  - A backend call becomes a parameter holding its outcome (`Ok(value)`, or
    `Err` for a call that threw).
  - Each handler returns the backend calls it issued, in order. Each call is
    recorded with whether `loading` was set while it was awaited.
  - Each method's postcondition equates the new state and the issued calls
    with a pure transition function of the old state, in module `ViewState`.
    The source's promises are proved as lemmas about those functions.
  - `ViewState.Run` folds a whole session of user events over the state, and
    `ViewState.Session` mounts the component once and then runs the user's
    events. An event does something only where the page offers it
    (`ViewState.Offered`); anywhere else it does nothing:
    - The four tab buttons are always there. A plain tab button selects the
      proposals, create or analysis tab (`PlainTab`). The recommendations tab
      is reached only by loading recommendations.
    - The draft's three inputs and the create button exist only on the create
      tab.
    - The vote and analyze buttons exist only on the proposals tab, one set
      per listed proposal, so they carry only ids from the list shown.
    - Vote, analyze and create are disabled while `loading`.
  - Lemmas about `Run` and `Session` cover the busy gate and show that the
    shown proposals always come from the backend.
- **`formatTimeAgo`** (`time_ago.dfy`). The label beside each proposal is a
  pure function of the clock reading `now` and the proposal's timestamp. It
  follows the source's arithmetic:
  - JavaScript's `Math.floor` division and its truncating `%` are written
    out (`FloorDiv`, `JsRem`).
  - The number is printed in decimal (`Decimal`).
  - An interval-based reference reading (`Classify`) is proved to agree with
    that arithmetic for every input, including timestamps in the future.

Choices `main.jsx` makes that the model follows:
- `loading` is one flag shared by every handler, and the statistics load
  never sets or clears it.
- The nested proposals reload inside create and vote clears `loading` before
  the outer handler finishes.
- The label for less than an hour, and for a timestamp in the future, is
  "Just now", capitalised.
- The fourth tab is the AI analysis tab.

## Model

| member | source | states |
|---|---|---|
| TimeAgo.FloorDiv | frontend/src/main.jsx:174 | `Math.floor(a / b)` for a positive divisor: the result q satisfies q*b <= a < q*b + b |
| TimeAgo.JsRem | frontend/src/main.jsx:175 | JavaScript's `%`: strictly between -b and b, equal to the Euclidean remainder for a non-negative dividend, non-positive for a negative one |
| TimeAgo.JsRemOdd | frontend/src/main.jsx:175 | the truncating remainder is odd in its dividend: JsRem(-a, b) == -JsRem(a, b) |
| TimeAgo.Decimal | frontend/src/main.jsx:177-178 | the template literal's decimal text of a count: non-empty, all digits, "0" exactly for zero, no leading zero otherwise |
| TimeAgo.DecimalRoundTrip | frontend/src/main.jsx:177-178 | reading the printed digits back gives the count that was printed |
| TimeAgo.DecimalInjective | frontend/src/main.jsx:177-178 | two different counts never print the same text |
| TimeAgo.Classify | frontend/src/main.jsx:172-179 | reference reading by intervals: "just now" exactly below one hour; whole hours n with 1 <= n <= 23 and n hours <= diff < n+1 hours exactly from one hour to one day; whole days n >= 1 with n days <= diff < n+1 days from one day on |
| TimeAgo.FormatTimeAgo | frontend/src/main.jsx:172-180 | for every clock reading and timestamp, the label computed with floor division and the truncating remainder is the phrase of the interval reading `Classify(now - timestamp)` |
| TimeAgo.JustNowBelowAnHour | frontend/src/main.jsx:172-179 | the label is "Just now" if and only if less than 3,600,000 ms have passed, which includes a timestamp ahead of the clock |
| TimeAgo.HoursLabel | frontend/src/main.jsx:173-178 | between one hour and one day the label is "N hour(s) ago" with N = diff div 3,600,000, 1 <= N <= 23, and the "s" present exactly when N > 1 |
| TimeAgo.DaysLabel | frontend/src/main.jsx:173-177 | from one day on the label is "N day(s) ago" with N = diff div 86,400,000 >= 1, and the "s" present exactly when N > 1 |
| TimeAgo.Counted | frontend/src/main.jsx:177-178 | a counted label is the count's decimal digits, a space, the unit, an "s" when the count is above one, then " ago", and its length is exactly that of those parts |
| TimeAgo.PhraseInjective | frontend/src/main.jsx:177-179 | equal labels mean equal readings: the text determines the unit and the count |
| TimeAgo.JustNowBoundaries | frontend/src/main.jsx:172-179 | 0 ms, 3,599,999 ms and -1 ms give "Just now" |
| TimeAgo.HourBoundaries | frontend/src/main.jsx:173-178 | 3,600,000 ms gives "1 hour ago", 7,200,000 gives "2 hours ago", 86,399,999 gives "23 hours ago" |
| TimeAgo.DayBoundaries | frontend/src/main.jsx:173-177 | 86,400,000 ms gives "1 day ago", 172,800,000 gives "2 days ago" |
| ViewState.LoadProposalsReplacesWholesale | frontend/src/main.jsx:101-110 | a successful load shows exactly the backend's list in its order, a failed one keeps the old list; nothing else changes but `loading`, which ends false; one GetProposals call is awaited with `loading` set |
| ViewState.LoadVotingStatsReplacesWholesale | frontend/src/main.jsx:112-119 | a successful stats load replaces the statistics wholesale, a failed one keeps them; `loading` is never touched; repeating the load with the same reply changes nothing |
| ViewState.CreateNeedsEveryField | frontend/src/main.jsx:121-122 | with any draft field empty, create changes nothing (not even `loading`) and calls nothing |
| ViewState.CreateSuccessResetsDraft | frontend/src/main.jsx:124-133 | a successful create clears the draft and switches to the proposals tab even when the reload fails; the list shown is the reload's or the old one; the calls are the create with the draft's three fields, then one reload |
| ViewState.CreateFailureKeepsState | frontend/src/main.jsx:124-133 | a create the backend rejects leaves every field but `loading` (now false) as it was, the draft included, and triggers no reload |
| ViewState.VoteShowsAuthoritativeTallies | frontend/src/main.jsx:136-145 | after a vote the list is exactly the reload's, never a local increment; a rejected vote issues no reload and keeps the list; the voter is "current-user.icp" |
| ViewState.AnalyzeShowsAnalysis | frontend/src/main.jsx:147-158 | a successful analysis sets its text, the selected proposal and the analysis tab; a failed one leaves all three as they were; `loading` ends false; the one call is the analysis request for that id, awaited with `loading` set |
| ViewState.RecommendationsShown | frontend/src/main.jsx:160-170 | successful recommendations set their text and the recommendations tab; failed ones leave both; `loading` ends false; the one call is the recommendations request, awaited with `loading` set |
| ViewState.ApplyEndsIdle | frontend/src/main.jsx:101-170 | no single event leaves `loading` set unless it was already set |
| ViewState.RunEndsIdle | frontend/src/main.jsx:101-170 | a session of events that starts idle is idle after every event, whichever backend calls failed |
| ViewState.ApplyAwaitsWhileLoading | frontend/src/main.jsx:101-170 | every call a user event issues is awaited with `loading` set, and none of them is the statistics load, which only the mount issues |
| ViewState.RunAwaitsWhileLoading | frontend/src/main.jsx:101-170 | the same for every call of any run of user events |
| ViewState.OnlyListedProposalsActedOn | frontend/src/main.jsx:260-340 | a vote or an analysis request goes out only from the proposals tab and only for an id of a proposal in the list shown |
| ViewState.DraftOnlyOnCreateTab | frontend/src/main.jsx:349-390 | away from the create tab, typing into the draft or clicking create changes nothing and calls nothing |
| ViewState.ApplyShowsReply | frontend/src/main.jsx:101-145 | after one event the list shown is the old one or one a reply in that event carried |
| ViewState.ProposalsComeFromBackend | frontend/src/main.jsx:101-145 | after any session the list shown is the initial one or one that a backend reply carried: the client never edits proposals itself |
| ViewState.SessionAwaitsWhileLoading | frontend/src/main.jsx:96-170 | over a whole session (one mount, then any user events), `loading` is set exactly while a call other than the statistics load is awaited, and the component ends idle |
| ViewState.SessionShowsOnlyReplies | frontend/src/main.jsx:96-145 | after a whole session the list shown is the empty initial one, the mount's reply, or a reply to a later create or vote |
| ViewState.TalliesStayNonNegative | frontend/src/main.jsx:101-145 | if every list the backend sends has non-negative tallies, no session ever shows a negative tally |
| ViewState.MountShowsSeed | frontend/src/main.jsx:15-99 | mounting against the seeded backend shows both seeded proposals with tallies (15, 3) and (8, 12) and the statistics {2, 2, 38} verbatim, ends idle, and issues GetProposals then GetVotingStats |
| ViewState.VoteYesOnSeed | frontend/src/main.jsx:136-145 | a "yes" on proposal 0 after mounting issues exactly Vote(0, "current-user.icp", true) then GetProposals, and shows the second reply's list |
| ViewState.FailedAnalysisKeepsEarlierOne | frontend/src/main.jsx:147-158 | from any state, a failed analysis keeps the earlier analysis text, the selected proposal and the current tab |
| Component.GovernanceAgent.constructor | frontend/src/main.jsx:5-12 | the initial state: no proposals, not loading, proposals tab, empty draft, empty AI texts, zero statistics, no selected proposal |
| Component.GovernanceAgent.LoadProposals | frontend/src/main.jsx:101-110 | the new fields and the issued calls are those of ViewState.LoadProposals on the old fields |
| Component.GovernanceAgent.LoadVotingStats | frontend/src/main.jsx:112-119 | the new fields and the issued calls are those of ViewState.LoadVotingStats on the old fields |
| Component.GovernanceAgent.Mount | frontend/src/main.jsx:96-99 | the mount effect, taken as proposals load then stats load, gives ViewState.Mount's state and calls |
| Component.GovernanceAgent.HandleCreateProposal | frontend/src/main.jsx:121-134 | only callable when not loading (the button is disabled then); the new fields and calls are ViewState.HandleCreateProposal's, including the nested reload |
| Component.GovernanceAgent.HandleVote | frontend/src/main.jsx:136-145 | only callable when not loading; the new fields and calls are ViewState.HandleVote's |
| Component.GovernanceAgent.HandleAnalyzeProposal | frontend/src/main.jsx:147-158 | only callable when not loading; the new fields and calls are ViewState.HandleAnalyzeProposal's |
| Component.GovernanceAgent.HandleGetRecommendations | frontend/src/main.jsx:160-170 | callable at any time, since its button is never disabled; the new fields and calls are ViewState.HandleGetRecommendations's |
| Component.GovernanceAgent.SetActiveTab | frontend/src/main.jsx:212-246 | a plain tab button (proposals, create or analysis; never recommendations) changes `activeTab` and nothing else |
| Component.GovernanceAgent.SetTitle | frontend/src/main.jsx:356 | typing a title changes only the draft's title |
| Component.GovernanceAgent.SetDescription | frontend/src/main.jsx:366 | typing a description changes only the draft's description |
| Component.GovernanceAgent.SetProposer | frontend/src/main.jsx:378 | typing a proposer changes only the draft's proposer |
| Component.MountThenVote | frontend/src/main.jsx:96-145 | a client of the class: mount against the seeded backend, then vote "yes" on proposal 0; the list shown is the reload's, and the calls are GetProposals, GetVotingStats, Vote, GetProposals |

## Left out

- Rendering: the JSX, CSS classes, icons, tab highlighting and loading spinners (main.jsx:182-444) are presentation only.
- The vote progress-bar width (main.jsx:311): floating-point division, which is NaN when both tallies are 0.
- The mock backend's internals (main.jsx:15-94). The `setTimeout` delays, the `Math.random` id and the canned AI texts are replaced by the outcome parameters. The seeded proposals and statistics are kept as a fixture (`SeedProposals`, `SEED_STATS`).
- Clock reads (`Date.now()`, main.jsx:26, 36, 173): the clock is a parameter `now`. Timestamps are whole milliseconds, and JavaScript's double precision is not modelled.
- `console.error` logging: observability only. A failure's message is carried in `Err` and otherwise ignored, as in the source.
- React's scheduling. State setters are applied at once, in program order, and handlers never interleave. In the source, the recommendations button stays enabled while a vote, create or analysis is pending. Clicking it then clears `loading` when it settles (main.jsx:169), which re-enables the gated buttons before the first operation has finished. The model does not capture that overlap. Because events never overlap, `loading` is false before every event of a session, so the `loading` part of `ViewState.Offered` never refuses an event in a session that starts idle. On mount the source starts the statistics load while the proposals load is still awaiting, so `getVotingStats` actually goes out with `loading` set. The model runs the two loads one after the other, so it records that call with `loading` clear.
- Button gating while `loading` is a precondition of the three gated handler methods, and part of `ViewState.Offered`. The create button is also disabled when a draft field is empty (main.jsx:386). The model does not gate on that: the handler's own check (main.jsx:122) gives the same outcome.
- `ViewState.ProposalsComeFromBackend` says the list shown is one of the backend's replies, not which one. The per-handler lemmas say which.
