/**
 * The game screen (`GameInterface`): the session record it keeps, the routing of
 * what the player types, and how a reply from the chat endpoint changes the
 * session.
 *
 * Each `setGameState(prev => ...)` updater of the component is a function on
 * `GameState`; the component itself is the class `GameInterface`, whose fields
 * are its four pieces of React state. An `await` splits a handler in two: the
 * part before the request and the part that handles the reply, which receives
 * the reply as a parameter.
 */
module Game {
  import opened Wrappers
  import opened Text
  import ResponseFormat

  datatype Status = GREEN | YELLOW | ORANGE | RED

  /** One turn of the conversation sent to the model: `role` is "system", "user" or "assistant". */
  datatype HistoryEntry = HistoryEntry(role: string, content: string)

  datatype GameState = GameState(
    round: nat,
    isGameActive: bool,
    gameHistory: seq<HistoryEntry>,
    operationalStatus: Status,
    missionBriefing: string,
    fullMissionDetails: string,
    category: string,
    context: string,
    foreignThreat: string,
    isGeneratingMission: bool)

  datatype MessageKind = System | User | Error | Info | Classified | Mission

  /** A line of the terminal transcript (its timestamp is not modelled). */
  datatype Message = Message(kind: MessageKind, content: string)

  const InitialState: GameState :=
    GameState(0, false, [], GREEN, "", "", "", "", "", false)

  // ---------------------------------------------------------------------------
  // Session invariant

  /**
   * Before the first acceptance there is no round and no history. Afterwards the
   * history is the briefing followed by `round - 1` pairs of a player decision
   * and a reply that judged it sound.
   */
  predicate WellFormed(s: GameState) {
    if s.round == 0 then
      s.gameHistory == [] && !s.isGameActive
    else
      |s.gameHistory| == 2 * s.round - 1
      && s.gameHistory[0].role == "system"
      && (forall k :: 1 <= k < |s.gameHistory| ==>
            s.gameHistory[k].role == (if k % 2 == 1 then "user" else "assistant"))
      && (forall k :: 1 <= k < |s.gameHistory| && k % 2 == 0 ==>
            Contains(s.gameHistory[k].content, SoundToken))
  }

  // ---------------------------------------------------------------------------
  // Accepting a mission

  /** The updater of `acceptMission`. */
  function Accepted(s: GameState): GameState {
    s.(round := 1, isGameActive := true,
       gameHistory := [HistoryEntry("system", s.missionBriefing)],
       operationalStatus := GREEN)
  }

  const AcceptMessages: seq<Message> := [
    Message(System, ""),
    Message(Classified, "=== CIA MISSION ACCEPTED ==="),
    Message(System, "OPERATIONAL STATUS: CONDITION GREEN"),
    Message(System, "CIA Operations Directorate has approved your deployment."),
    Message(System, "You are now operational in the field. Execute mission per CIA protocols."),
    Message(System, ""),
    Message(Classified, "CIA Operative, what is your first operational move?")
  ]

  /**
   * Accepting opens round 1 with the briefing as the only history entry and the
   * status at GREEN, whatever came before; the mission itself is kept.
   */
  lemma AcceptedState(s: GameState)
    ensures var r := Accepted(s);
      r.round == 1 && r.isGameActive && r.operationalStatus == GREEN
      && r.gameHistory == [HistoryEntry("system", s.missionBriefing)]
      && r.missionBriefing == s.missionBriefing && r.fullMissionDetails == s.fullMissionDetails
      && r.category == s.category && r.context == s.context && r.foreignThreat == s.foreignThreat
      && r.isGeneratingMission == s.isGeneratingMission
      && WellFormed(r)
  {
  }

  // ---------------------------------------------------------------------------
  // Routing what the player typed

  /** What `sendMessage` does with the current input before any request is made. */
  datatype Command =
    | Ignored            // blank input or a request in flight: nothing happens
    | Discarded          // inactive and not a command: the input is cleared, nothing else
    | Accept
    | Regenerate
    | Send(message: string)

  function Route(isGameActive: bool, isLoading: bool, input: string): Command {
    var userMessage := Trim(input);
    if userMessage == [] || isLoading then Ignored
    else if !isGameActive then
      if ToUpper(userMessage) == "ACCEPT" then Accept
      else if ToUpper(userMessage) == "REGENERATE" then Regenerate
      else Discarded
    else Send(userMessage)
  }

  /**
   * Blank input or input while loading is ignored; while no mission is active only
   * the two commands (in any letter case) do anything and nothing is sent; while a
   * mission is active the trimmed input is sent as it is.
   */
  lemma RouteCases(isGameActive: bool, isLoading: bool, input: string)
    ensures var c := Route(isGameActive, isLoading, input);
      (c == Ignored <==> isLoading || Trim(input) == [])
      && (c == Accept <==> !isLoading && !isGameActive && ToUpper(Trim(input)) == "ACCEPT")
      && (c == Regenerate <==> !isLoading && !isGameActive && ToUpper(Trim(input)) == "REGENERATE")
      && (c == Discarded <==>
            !isLoading && !isGameActive && Trim(input) != []
            && ToUpper(Trim(input)) != "ACCEPT" && ToUpper(Trim(input)) != "REGENERATE")
      && (c.Send? <==> !isLoading && isGameActive && Trim(input) != [])
      && (c.Send? ==> c.message == Trim(input))
  {
    var u := Trim(input);
    if u != [] && ToUpper(u) == "ACCEPT" {
      assert ToUpper(u) != "REGENERATE" by {
        assert |ToUpper(u)| == 6;
      }
    }
  }

  // ---------------------------------------------------------------------------
  // Reading a reply

  const SoundToken: string := "[OPERATIONALLY SOUND]"
  const CompromisedToken: string := "[OPERATIONALLY COMPROMISED]"

  /** Phrases whose presence ends the mission. */
  const EndMarkers: seq<string> := [
    "OUTCOME A", "OUTCOME B", "OUTCOME C", "OUTCOME D",
    "MISSION COMPLETE", "OPERATION TERMINATED"
  ]

  predicate MissionEnded(content: string) {
    ContainsAny(content, EndMarkers)
  }

  /** `s` starts with `p` ignoring letter case (`p` is upper case). */
  predicate StartsWithUpper(s: string, p: string) {
    |p| <= |s| && ToUpper(s[..|p|]) == p
  }

  /** Number of leading whitespace characters of `s` (what a greedy `\s+` takes). */
  function SpaceRun(s: string): (r: nat)
    ensures r <= |s|
    ensures forall i :: 0 <= i < r ==> IsSpace(s[i])
    ensures r < |s| ==> !IsSpace(s[r])
    decreases |s|
  {
    if s != [] && IsSpace(s[0]) then 1 + SpaceRun(s[1..]) else 0
  }

  /** The colour named at the start of `s`, ignoring case. */
  function ColourAt(s: string): Option<Status> {
    if StartsWithUpper(s, "GREEN") then Some(GREEN)
    else if StartsWithUpper(s, "YELLOW") then Some(YELLOW)
    else if StartsWithUpper(s, "ORANGE") then Some(ORANGE)
    else if StartsWithUpper(s, "RED") then Some(RED)
    else None
  }

  /** A match of `/CONDITION\s+(GREEN|YELLOW|ORANGE|RED)/i` starting at the first character of `s`. */
  function ConditionAt(s: string): Option<Status> {
    if StartsWithUpper(s, "CONDITION") then
      var w := SpaceRun(s[9..]);
      if w == 0 then None else ColourAt(s[9 + w..])
    else None
  }

  /** `content.match(...)`: the colour of the leftmost match, if any. */
  function FirstCondition(s: string): Option<Status>
    decreases |s|
  {
    if ConditionAt(s).Some? then ConditionAt(s)
    else if s == [] then None
    else FirstCondition(s[1..])
  }

  /** The status found is that of the leftmost place where the pattern matches, and there is one iff the pattern matches somewhere. */
  lemma {:induction false} FirstConditionIsLeftmost(s: string)
    ensures FirstCondition(s).Some? <==> exists i :: 0 <= i <= |s| && ConditionAt(s[i..]).Some?
    ensures FirstCondition(s).Some? ==>
      exists i :: 0 <= i <= |s| && ConditionAt(s[i..]) == FirstCondition(s)
        && forall j :: 0 <= j < i ==> ConditionAt(s[j..]).None?
    decreases |s|
  {
    assert s[0..] == s;
    if ConditionAt(s).Some? {
    } else if s == [] {
    } else {
      var t := s[1..];
      FirstConditionIsLeftmost(t);
      forall i | 0 <= i <= |t|
        ensures s[i + 1..] == t[i..]
      {
      }
      if exists i :: 0 <= i <= |s| && ConditionAt(s[i..]).Some? {
        var i :| 0 <= i <= |s| && ConditionAt(s[i..]).Some?;
        assert i > 0;
        assert ConditionAt(t[i - 1..]).Some?;
      }
      if FirstCondition(s).Some? {
        var i :| 0 <= i <= |t| && ConditionAt(t[i..]) == FirstCondition(t)
          && forall j :: 0 <= j < i ==> ConditionAt(t[j..]).None?;
        assert ConditionAt(s[i + 1..]) == FirstCondition(s);
        forall j | 0 <= j < i + 1
          ensures ConditionAt(s[j..]).None?
        {
          if j > 0 {
            assert s[j..] == t[j - 1..];
          }
        }
      }
    }
  }

  /** The status updater: the colour of the first CONDITION phrase, or no change. */
  function StatusAfter(current: Status, content: string): Status {
    match FirstCondition(content)
    case Some(colour) => colour
    case None => current
  }

  /** The three updaters a reply applies (round and history, status, activity), folded into one. */
  function ApplyResponse(s: GameState, userMessage: string, content: string): GameState {
    var sound := Contains(content, SoundToken);
    s.(round := if sound then s.round + 1 else s.round,
       gameHistory := if sound
         then s.gameHistory + [HistoryEntry("user", userMessage), HistoryEntry("assistant", content)]
         else s.gameHistory,
       operationalStatus := StatusAfter(s.operationalStatus, content),
       isGameActive := s.isGameActive && !MissionEnded(content))
  }

  /** The round advances by one and the history gains the decision and the reply exactly when the reply judged the decision sound. */
  lemma ApplyResponseRound(s: GameState, userMessage: string, content: string)
    ensures var r := ApplyResponse(s, userMessage, content);
      (r.round == s.round + 1 <==> Contains(content, SoundToken))
      && (r.round == s.round <==> !Contains(content, SoundToken))
      && r.gameHistory == if Contains(content, SoundToken)
        then s.gameHistory + [HistoryEntry("user", userMessage), HistoryEntry("assistant", content)]
        else s.gameHistory
  {
  }

  /** The status follows the first CONDITION phrase of the reply and stays put without one. */
  lemma ApplyResponseStatus(s: GameState, userMessage: string, content: string)
    ensures var r := ApplyResponse(s, userMessage, content);
      (FirstCondition(content) == None ==> r.operationalStatus == s.operationalStatus)
      && (FirstCondition(content) != None ==> r.operationalStatus == FirstCondition(content).value)
  {
  }

  /** A reply ends the mission iff it holds an end phrase, and never reopens one. */
  lemma ApplyResponseActive(s: GameState, userMessage: string, content: string)
    ensures var r := ApplyResponse(s, userMessage, content);
      (r.isGameActive <==> s.isGameActive && !MissionEnded(content))
      && (r.isGameActive ==> s.isGameActive)
  {
  }

  /** A reply leaves the mission description untouched. */
  lemma ApplyResponseKeepsMission(s: GameState, userMessage: string, content: string)
    ensures var r := ApplyResponse(s, userMessage, content);
      r.missionBriefing == s.missionBriefing && r.fullMissionDetails == s.fullMissionDetails
      && r.category == s.category && r.context == s.context && r.foreignThreat == s.foreignThreat
      && r.isGeneratingMission == s.isGeneratingMission
  {
  }

  /** Once a mission has been accepted, every reply keeps the history in the shape `WellFormed` describes. */
  lemma ApplyResponseWellFormed(s: GameState, userMessage: string, content: string)
    requires WellFormed(s) && s.round >= 1
    ensures WellFormed(ApplyResponse(s, userMessage, content))
  {
    if Contains(content, SoundToken) {
      var h := s.gameHistory;
      var h' := h + [HistoryEntry("user", userMessage), HistoryEntry("assistant", content)];
      var n := |h|;
      assert n % 2 == 1 && (n + 1) % 2 == 0;
      forall k | 1 <= k < |h'|
        ensures h'[k].role == (if k % 2 == 1 then "user" else "assistant")
      {
        if k < n {
          assert h'[k] == h[k];
        }
      }
      forall k | 1 <= k < |h'| && k % 2 == 0
        ensures Contains(h'[k].content, SoundToken)
      {
        if k < n {
          assert h'[k] == h[k];
        }
      }
    }
  }

  // ---------------------------------------------------------------------------
  // Replies as the client receives them

  /**
   * The reply to a gameplay request: `Failed` when the request failed or the
   * response was not OK; otherwise the parsed body, where an empty `error` is
   * the same as no `error` (both are falsy).
   */
  datatype ChatReply = Failed | Body(error: string, response: string)

  /** The game state after a gameplay reply: only a body without an error changes it. */
  function AfterReply(s: GameState, userMessage: string, reply: ChatReply): GameState {
    if reply.Body? && reply.error == "" then ApplyResponse(s, userMessage, reply.response) else s
  }

  // Fixed transcript texts
  const CommunicationFailure: string := "CIA COMMUNICATION FAILURE - Check secure channel and retry."
  const OperationalErrorPrefix: string := "CIA OPERATIONAL ERROR: "
  const SecurityBreach: string := "CIA OPERATIONAL SECURITY BREACH - Revise approach per CIA protocols."
  const GenerationFailure: string := "SECURE CIA COMMUNICATION FAILURE - Unable to generate mission"
  const GenerationErrorPrefix: string := "CIA MISSION GENERATION FAILED: "
  const BriefingHeader: string := "=== CIA MISSION BRIEFING - CLASSIFIED ==="

  /** The transcript lines a reply without an error adds: its formatted text, then a warning when it judged the decision compromised. */
  function ResponseLines(formatted: string, content: string): seq<Message> {
    [Message(Classified, formatted)]
    + if !Contains(content, SoundToken) && Contains(content, CompromisedToken)
      then [Message(Error, SecurityBreach)]
      else []
  }

  function ResponseMessages(content: string): seq<Message> {
    ResponseLines(ResponseFormat.FormatClassifiedResponse(content), content)
  }

  /** The transcript lines a gameplay reply adds. */
  function ReplyMessages(reply: ChatReply): seq<Message> {
    match reply
    case Failed => [Message(Error, CommunicationFailure)]
    case Body(error, content) =>
      if error != "" then [Message(Error, OperationalErrorPrefix + error)]
      else ResponseMessages(content)
  }

  /** A failed request or an error body leaves every field of the game state as it was, and adds one error line. */
  lemma ErrorReplyKeepsState(s: GameState, userMessage: string, reply: ChatReply)
    requires reply.Failed? || reply.error != ""
    ensures AfterReply(s, userMessage, reply) == s
    ensures |ReplyMessages(reply)| == 1 && ReplyMessages(reply)[0].kind == Error
  {
  }

  /** The reply to a mission request, as for `ChatReply`; an empty `fullMissionDetails` is the same as none. */
  datatype MissionReply =
    | MissionFailed
    | MissionBody(error: string, missionBriefing: string, fullMissionDetails: string,
                  category: string, context: string, foreignThreat: string)

  const GenerateMessages: seq<Message> := [
    Message(System, "=== GENERATING CIA CLASSIFIED OPERATION ==="),
    Message(System, "Accessing CIA intelligence priorities..."),
    Message(System, "Analyzing threats to US national security..."),
    Message(System, "Establishing operational parameters..."),
    Message(System, "Coordinating with CIA Operations Directorate...")
  ]

  const StartMessages: seq<Message> := [
    Message(Classified, "=== CIA CLASSIFIED TERMINAL ACCESS ==="),
    Message(Classified, "CENTRAL INTELLIGENCE AGENCY - OPERATIONS DIRECTORATE"),
    Message(System, "Initializing secure CIA network connection..."),
    Message(System, "Authenticating CIA clearance level..."),
    Message(System, "Access granted - CIA EYES ONLY"),
    Message(System, ""),
    Message(Info, "Welcome, CIA Operative. You are now connected to CIA Operations Center."),
    Message(System, "")
  ]

  /** The game state once a mission request has been answered. */
  function AfterMission(s: GameState, reply: MissionReply): GameState {
    if reply.MissionBody? && reply.error == "" then
      s.(isGeneratingMission := false,
         missionBriefing := reply.missionBriefing,
         fullMissionDetails := reply.fullMissionDetails,
         category := reply.category,
         context := reply.context,
         foreignThreat := reply.foreignThreat)
    else s.(isGeneratingMission := false)
  }

  /** Receiving a mission never touches the round, the history or whether a mission is active. */
  lemma AfterMissionKeepsSession(s: GameState, reply: MissionReply)
    ensures var r := AfterMission(s, reply);
      r.round == s.round && r.gameHistory == s.gameHistory && r.isGameActive == s.isGameActive
      && r.operationalStatus == s.operationalStatus && !r.isGeneratingMission
      && (WellFormed(s) ==> WellFormed(r))
  {
  }

  // ---------------------------------------------------------------------------
  // The component

  class GameInterface {
    var messages: seq<Message>
    var currentInput: string
    var isLoading: bool
    var gameState: GameState

    /** A request is only in flight while a mission is active. */
    predicate Valid()
      reads this
    {
      WellFormed(gameState) && (isLoading ==> gameState.isGameActive)
    }

    constructor()
      ensures messages == [] && currentInput == "" && !isLoading && gameState == InitialState
      ensures Valid()
    {
      messages := [];
      currentInput := "";
      isLoading := false;
      gameState := InitialState;
    }

    /** The input box's `onChange`. */
    method SetInput(text: string)
      modifies this
      ensures currentInput == text
      ensures messages == old(messages) && isLoading == old(isLoading) && gameState == old(gameState)
    {
      currentInput := text;
    }

    method AddMessage(kind: MessageKind, content: string)
      modifies this
      ensures messages == old(messages) + [Message(kind, content)]
      ensures currentInput == old(currentInput) && isLoading == old(isLoading) && gameState == old(gameState)
    {
      messages := messages + [Message(kind, content)];
    }

    method AcceptMission()
      requires Valid()
      modifies this
      ensures gameState == Accepted(old(gameState))
      ensures messages == old(messages) + AcceptMessages
      ensures currentInput == old(currentInput) && isLoading == old(isLoading)
      ensures Valid()
    {
      gameState := Accepted(gameState);
      AcceptedState(old(gameState));
      messages := messages + AcceptMessages;
    }

    /** `generateMission` up to its request. */
    method GenerateMission()
      requires Valid()
      modifies this
      ensures gameState == old(gameState).(isGeneratingMission := true)
      ensures messages == old(messages) + GenerateMessages
      ensures currentInput == old(currentInput) && isLoading == old(isLoading)
      ensures Valid()
    {
      gameState := gameState.(isGeneratingMission := true);
      messages := messages + GenerateMessages;
    }

    /** `generateMission` from the reply on. */
    method ReceiveMission(reply: MissionReply)
      requires Valid()
      modifies this
      ensures gameState == AfterMission(old(gameState), reply)
      ensures messages == old(messages) + match reply
        case MissionFailed =>
          [Message(Error, GenerationFailure)]
        case MissionBody(error, briefing, _, _, _, _) =>
          if error != "" then [Message(Error, GenerationErrorPrefix + error)]
          else [Message(System, ""), Message(Classified, BriefingHeader),
                Message(Mission, briefing)]
      ensures currentInput == old(currentInput) && isLoading == old(isLoading)
      ensures Valid()
    {
      AfterMissionKeepsSession(gameState, reply);
      match reply
      case MissionFailed =>
        AddMessage(Error, GenerationFailure);
        gameState := gameState.(isGeneratingMission := false);
      case MissionBody(error, briefing, details, category, context, threat) =>
        if error != "" {
          AddMessage(Error, GenerationErrorPrefix + error);
          gameState := gameState.(isGeneratingMission := false);
        } else {
          gameState := gameState.(isGeneratingMission := false, missionBriefing := briefing,
            fullMissionDetails := details, category := category, context := context,
            foreignThreat := threat);
          AddMessage(System, "");
          AddMessage(Classified, BriefingHeader);
          AddMessage(Mission, briefing);
        }
    }

    /** `startGame` up to the mission request: a fresh transcript, the banner, then `generateMission`. */
    method StartGame()
      requires Valid()
      modifies this
      ensures messages == StartMessages + GenerateMessages
      ensures gameState == old(gameState).(isGeneratingMission := true)
      ensures currentInput == old(currentInput) && isLoading == old(isLoading)
      ensures Valid()
    {
      messages := StartMessages;
      GenerateMission();
    }

    /**
     * `sendMessage` up to its request. What happens is decided by `Route`; a
     * `Regenerate` continues with `ReceiveMission` and a `Send` with `ReceiveReply`
     * once the reply is in.
     */
    method SendMessage() returns (command: Command)
      requires Valid()
      modifies this
      ensures command == Route(old(gameState.isGameActive), old(isLoading), old(currentInput))
      ensures command == Ignored ==>
        currentInput == old(currentInput) && messages == old(messages)
        && isLoading == old(isLoading) && gameState == old(gameState)
      ensures command != Ignored ==> currentInput == ""
      ensures command == Discarded ==>
        messages == old(messages) && isLoading == old(isLoading) && gameState == old(gameState)
      ensures command == Accept ==>
        gameState == Accepted(old(gameState)) && messages == old(messages) + AcceptMessages
        && isLoading == old(isLoading)
      ensures command == Regenerate ==>
        gameState == old(gameState).(isGeneratingMission := true)
        && messages == old(messages) + GenerateMessages && isLoading == old(isLoading)
      ensures command.Send? ==>
        isLoading && gameState == old(gameState)
        && messages == old(messages) + [Message(User, "> " + command.message)]
      ensures Valid()
    {
      command := Route(gameState.isGameActive, isLoading, currentInput);
      if command == Ignored {
        return;
      }
      currentInput := "";
      match command {
        case Accept =>
          AcceptMission();
        case Regenerate =>
          GenerateMission();
        case Send(userMessage) =>
          isLoading := true;
          AddMessage(User, "> " + userMessage);
        case Discarded =>
      }
    }

    /** The three `setGameState` updaters a reply without an error applies, in order. */
    method ApplyUpdaters(userMessage: string, content: string)
      modifies this
      ensures gameState == ApplyResponse(old(gameState), userMessage, content)
      ensures messages == old(messages) && isLoading == old(isLoading) && currentInput == old(currentInput)
    {
      var isOperationallySound := Contains(content, SoundToken);
      if isOperationallySound {
        gameState := gameState.(round := gameState.round + 1,
          gameHistory := gameState.gameHistory
            + [HistoryEntry("user", userMessage), HistoryEntry("assistant", content)]);
      }
      var statusMatch := FirstCondition(content);
      if statusMatch.Some? {
        gameState := gameState.(operationalStatus := statusMatch.value);
      }
      if MissionEnded(content) {
        gameState := gameState.(isGameActive := false);
      }
    }

    /** The part of `sendMessage` that handles a reply without an error. */
    method HandleResponse(userMessage: string, content: string)
      requires Valid() && isLoading
      modifies this
      ensures gameState == ApplyResponse(old(gameState), userMessage, content)
      ensures messages == old(messages) + ResponseMessages(content)
      ensures isLoading && currentInput == old(currentInput)
      ensures WellFormed(gameState)
    {
      ApplyResponseWellFormed(gameState, userMessage, content);
      ApplyUpdaters(userMessage, content);
      var formattedContent := ResponseFormat.FormatClassifiedResponse(content);
      ShowResponse(formattedContent, content);
    }

    /** The transcript lines of a reply without an error: its formatted text and, maybe, a warning. */
    method ShowResponse(formattedContent: string, content: string)
      modifies this
      ensures messages == old(messages) + ResponseLines(formattedContent, content)
      ensures gameState == old(gameState) && isLoading == old(isLoading) && currentInput == old(currentInput)
    {
      var isOperationallySound := Contains(content, SoundToken);
      AddMessage(Classified, formattedContent);
      if !isOperationallySound && Contains(content, CompromisedToken) {
        AddMessage(Error, SecurityBreach);
      }
    }

    /** `sendMessage` from the reply on, including its `finally`. */
    method ReceiveReply(userMessage: string, reply: ChatReply)
      requires Valid() && isLoading
      modifies this
      ensures gameState == AfterReply(old(gameState), userMessage, reply)
      ensures messages == old(messages) + ReplyMessages(reply)
      ensures !isLoading && currentInput == old(currentInput)
      ensures Valid()
    {
      match reply {
        case Failed =>
          AddMessage(Error, CommunicationFailure);
        case Body(error, content) =>
          if error != "" {
            AddMessage(Error, OperationalErrorPrefix + error);
          } else {
            HandleResponse(userMessage, content);
          }
      }
      isLoading := false;
    }
  }
}
