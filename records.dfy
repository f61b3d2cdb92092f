/**
 * The mission records kept in the database (`database.ts`): sessions, decisions,
 * the backend-only metadata and its phases, the values a new session or a new
 * metadata record starts from, and the lookup of the current phase.
 *
 * Columns the database fills in itself (ids other than the session reference,
 * timestamps) are not part of the records.
 */
module MissionRecords {
  import opened Wrappers

  datatype Status = GREEN | YELLOW | ORANGE | RED
  datatype Risk = LOW | MEDIUM | HIGH
  datatype Outcome = A | B | C | D
  datatype DecisionType = OptionSelected | CustomInput

  /** A character's standing; fields read from views and timestamps are not modelled. */
  datatype CharacterStats = CharacterStats(
    id: string,
    userId: string,
    baseLevel: int,
    baseXp: int,
    totalMissionsCompleted: int,
    totalSuccessfulMissions: int,
    reputationScore: int)

  /** A skill a character holds; the floating-point success rate and timestamps are not modelled. */
  datatype UserSkill = UserSkill(
    id: string,
    userId: string,
    skillId: int,
    skillLevel: int,
    skillXp: int,
    isEnabled: bool,
    timesUsed: int)

  datatype MissionSession = MissionSession(
    userId: Option<string>,
    missionBriefing: string,
    missionCategory: string,
    missionContext: string,
    foreignThreat: string,
    currentRound: nat,
    maxRounds: nat,
    operationalStatus: Status,
    isActive: bool,
    isCompleted: bool,
    missionOutcome: Option<Outcome>,
    successScore: Option<int>,
    missionStepsCompleted: seq<string>)

  /** A recorded decision; `riskAssessment` is `None` when the column is empty. */
  datatype UserDecision = UserDecision(
    roundNumber: nat,
    decisionType: DecisionType,
    aiResponse: string,
    decisionContext: string,
    wasOperationallySound: bool,
    threatLevelAfter: string,
    riskAssessment: Option<Risk>)

  datatype MissionPhase = MissionPhase(
    phaseNumber: nat,
    phaseName: string,
    phaseObjective: string,
    description: string,
    estimatedRounds: nat,
    threatEscalation: Risk,
    criticalDecisions: seq<string>)

  datatype MissionOutcome = MissionOutcome(
    outcomeLetter: Outcome,
    outcomeName: string,
    description: string,
    consequences: string,
    narrative: string)

  datatype MissionMetadata = MissionMetadata(
    missionSessionId: string,
    fullMissionBriefing: string,
    detailedPhases: seq<MissionPhase>,
    successConditions: seq<string>,
    failureConditions: seq<string>,
    possibleOutcomes: seq<MissionOutcome>,
    currentPhaseIndex: int,
    phaseObjectivesCompleted: seq<string>,
    backendNotes: string)

  // ---------------------------------------------------------------------------
  // Outcomes

  /** Outcomes A and B count as a successful mission. */
  predicate IsSuccessful(outcome: Option<Outcome>) {
    outcome == Some(A) || outcome == Some(B)
  }

  /** Outcomes C and D count as a failed mission. */
  predicate IsFailed(outcome: Option<Outcome>) {
    outcome == Some(C) || outcome == Some(D)
  }

  /** Every outcome letter is exactly one of successful and failed; a mission without an outcome is neither. */
  lemma OutcomePartition(outcome: Option<Outcome>)
    ensures outcome.Some? ==> (IsSuccessful(outcome) <==> !IsFailed(outcome))
    ensures outcome.None? ==> !IsSuccessful(outcome) && !IsFailed(outcome)
  {
    if outcome.Some? {
      match outcome.value {
        case A =>
        case B =>
        case C =>
        case D =>
      }
    }
  }

  // ---------------------------------------------------------------------------
  // New records

  /** What `createMissionSession` is given. */
  datatype SessionRequest = SessionRequest(
    missionBriefing: string, category: string, context: string, foreignThreat: string,
    maxRounds: nat, userId: Option<string>)

  /** The row `createMissionSession` inserts. */
  function NewMissionSession(request: SessionRequest): MissionSession {
    MissionSession(
      request.userId, request.missionBriefing, request.category, request.context,
      request.foreignThreat, 0, request.maxRounds, GREEN, true, false, None, None, [])
  }

  /** What `createMissionMetadata` is given; `backendNotes` is optional. */
  datatype MetadataRequest = MetadataRequest(
    missionSessionId: string, fullMissionBriefing: string, detailedPhases: seq<MissionPhase>,
    successConditions: seq<string>, failureConditions: seq<string>,
    possibleOutcomes: seq<MissionOutcome>, backendNotes: Option<string>)

  /** The row `createMissionMetadata` inserts: missing notes become the empty string. */
  function NewMissionMetadata(request: MetadataRequest): MissionMetadata {
    MissionMetadata(
      request.missionSessionId, request.fullMissionBriefing, request.detailedPhases,
      request.successConditions, request.failureConditions, request.possibleOutcomes,
      0, [], if request.backendNotes.Some? then request.backendNotes.value else "")
  }

  /** The phase at `currentPhaseIndex`, or `None` when the index is outside the phase list. */
  function CurrentPhase(metadata: MissionMetadata): (phase: Option<MissionPhase>)
    ensures phase.Some? <==> 0 <= metadata.currentPhaseIndex < |metadata.detailedPhases|
    ensures phase.Some? ==> phase.value in metadata.detailedPhases
  {
    var i := metadata.currentPhaseIndex;
    if 0 <= i < |metadata.detailedPhases| then Some(metadata.detailedPhases[i]) else None
  }

  /**
   * A new session starts at round 0 with status GREEN, active, not completed,
   * without outcome or score and with no steps; the request's fields are kept.
   */
  lemma NewSessionStarts(request: SessionRequest)
    ensures var s := NewMissionSession(request);
      s.currentRound == 0 && s.operationalStatus == GREEN && s.isActive && !s.isCompleted
      && s.missionStepsCompleted == [] && s.missionOutcome == None && s.successScore == None
      && !IsSuccessful(s.missionOutcome) && !IsFailed(s.missionOutcome)
      && s.maxRounds == request.maxRounds && s.userId == request.userId
      && s.missionBriefing == request.missionBriefing && s.missionCategory == request.category
      && s.missionContext == request.context && s.foreignThreat == request.foreignThreat
  {
  }

  /**
   * New metadata starts at phase index 0 with no completed objectives, so its
   * current phase is the first phase when there is one; notes default to "".
   */
  lemma NewMetadataStarts(request: MetadataRequest)
    ensures var m := NewMissionMetadata(request);
      m.currentPhaseIndex == 0 && m.phaseObjectivesCompleted == []
      && m.detailedPhases == request.detailedPhases
      && CurrentPhase(m) == (if request.detailedPhases == [] then None else Some(request.detailedPhases[0]))
      && (request.backendNotes.None? ==> m.backendNotes == "")
      && (request.backendNotes.Some? ==> m.backendNotes == request.backendNotes.value)
  {
  }
}
