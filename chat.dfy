/**
 * The scripted conversation engine of the chat screen. A constant table maps
 * node ids to nodes; entering a node appends its text to the transcript,
 * shows the options, or swaps the floating avatar video, and may schedule an
 * automatic advance to the node's `next`. Clicking an option clears the
 * transcript and jumps to the option's target.
 *
 * Timers are not run: entering a node returns the advance it schedules as a
 * `Pending(delay, target)` value, and a timer firing is an event that sets the
 * current node to the target. Message ids carry the node id and a timestamp
 * that the caller supplies.
 */
module Chat {

  import opened Wrappers
  import FloatingVideo

  datatype NodeType = Message | Options | Command

  /** A button under an options node; `caption` is the source's `label` (a Dafny keyword). */
  datatype ChatOption = ChatOption(caption: string, next: string)

  /** The parameter bag of a command node. */
  datatype CommandParams = CommandParams(url: Option<string>, mute: bool, controls: bool, floating: bool, resizable: bool)

  /** One entry of the flow table; which fields are present depends on `kind`. */
  datatype ChatNode = ChatNode(
    kind: NodeType,
    avatar: Option<string>,
    message: Option<string>,
    options: Option<seq<ChatOption>>,
    next: Option<string>,
    command: Option<string>,
    params: Option<CommandParams>)

  /** A transcript entry's React key: the node id and the time it was entered. */
  datatype EntryId = EntryId(node: string, time: int)

  datatype Entry = Entry(id: EntryId, message: string, isBot: bool)

  /** The component state: `currentState`, `messages`, `showOptions`, `floatingVideoUrl`. */
  datatype FlowState = FlowState(current: string, messages: seq<Entry>, showOptions: bool, videoUrl: string)

  /** An automatic advance to `target`, due `delay` milliseconds after it was scheduled. */
  datatype Pending = Pending(delay: nat, target: string)

  /** What entering a node produces: the new state and the advance it schedules, if any. */
  datatype Effect = Effect(state: FlowState, pending: Option<Pending>)

  const StartNode: string := "start"
  const MenuNode: string := "menu_principal"
  /** The floating player starts on the reception video. */
  const InitialVideoUrl: string := ReceptionVideoUrl
  const SetFloatingAvatarVideo: string := "setFloatingAvatarVideo"

  /** Auto-advance delays in milliseconds. */
  const CommandDelay: nat := 300
  const StartDelay: nat := 1500
  const MessageDelay: nat := 2000

  /** JavaScript truthiness of an optional string: present and not empty. */
  predicate Truthy(s: Option<string>) {
    s.Some? && s.value != ""
  }

  // ---------------------------------------------------------------------------
  // The flow table
  // ---------------------------------------------------------------------------

  const StartText: string :=
    "👋 Bem-vindo(a) ao Mapa Interativo Acessível do IFCE Fortaleza.\n"
    + "O NeoTalk nasceu para tornar o campus mais acessível por meio da tecnologia.\n"
    + "Aqui, qualquer pessoa pode se orientar com autonomia, inclusão e inovação, utilizando Libras, texto ou áudio.\n"
    + "\n"
    + "Mais que mapas, criamos conexões. 🌐"

  const IntroductionText: string :=
    "Olá, eu sou a Lia.\n"
    + "O NeoTalk é uma tecnologia assistiva criada para deixar o prédio Ernando Pinheiro 100% acessível em Libras.\n"
    + "Aqui, o chat responde dúvidas sobre salas, banheiros, saídas de emergência e muito mais — tudo em Libras, texto ou áudio, como você preferir.\n"
    + "\n"
    + "Seu acesso, sua autonomia. Vamos começar?"

  const MenuText: string := "Escolha uma das opções abaixo para assistir ao vídeo correspondente:"

  const ReceptionVideoUrl: string := "https://vimeo.com/1129591813"
  const NapneVideoUrl: string := "https://vimeo.com/1130092406"

  /** A command node that swaps the floating video and returns to the menu. */
  function VideoCommand(url: string): ChatNode {
    ChatNode(Command, None, None, None, Some(MenuNode), Some(SetFloatingAvatarVideo),
             Some(CommandParams(Some(url), true, false, true, true)))
  }

  const ChatFlowTable: map<string, ChatNode> := map[
    "start" := ChatNode(Message, Some("lia"), Some(StartText), None, Some("introduction"), None, None),
    "introduction" := ChatNode(Message, Some("lia"), Some(IntroductionText), None, Some(MenuNode), None, None),
    "menu_principal" := ChatNode(Options, None, Some(MenuText),
                                 Some([ChatOption("🎥 Recepção", "recepcao_video"),
                                       ChatOption("🎥 NAPNE", "napne_video"),
                                       ChatOption("🎥 Biblioteca", "biblioteca_video")]),
                                 None, None, None),
    "recepcao_video" := VideoCommand(ReceptionVideoUrl),
    "napne_video" := VideoCommand(NapneVideoUrl),
    "biblioteca_video" := VideoCommand(NapneVideoUrl)
  ]

  /** Every node id a node can lead to: its `next` and its options' targets. */
  function Targets(n: ChatNode): set<string> {
    (if n.next.Some? then {n.next.value} else {})
    + (if n.options.Some? then set i | 0 <= i < |n.options.value| :: n.options.value[i].next else {})
  }

  /** The table is closed: the start node exists and every `next` and option target is a node. */
  lemma TableClosed()
    ensures StartNode in ChatFlowTable
    ensures forall id :: id in ChatFlowTable ==> Targets(ChatFlowTable[id]) <= ChatFlowTable.Keys
    ensures forall id :: id in ChatFlowTable && ChatFlowTable[id].kind == Options ==>
              ChatFlowTable[id].options.Some? && |ChatFlowTable[id].options.value| >= 1
  {
  }

  // ---------------------------------------------------------------------------
  // Entering a node, choosing an option
  // ---------------------------------------------------------------------------

  const InitialState: FlowState := FlowState(StartNode, [], false, InitialVideoUrl)

  /** The node-entry effect, run whenever `currentState` changes (and on mount). */
  function EntryEffect(flow: map<string, ChatNode>, s: FlowState, now: int): Effect {
    if s.current !in flow then Effect(s, None)
    else
      var node := flow[s.current];
      var messages :=
        if node.kind != Command && Truthy(node.message)
        then s.messages + [Entry(EntryId(s.current, now), node.message.value, true)]
        else s.messages;
      if node.kind == Options then
        Effect(s.(messages := messages, showOptions := true), None)
      else if node.kind == Command then
        var url :=
          if node.command == Some(SetFloatingAvatarVideo) && node.params.Some? && Truthy(node.params.value.url)
          then node.params.value.url.value
          else s.videoUrl;
        Effect(s.(messages := messages, showOptions := false, videoUrl := url),
               if Truthy(node.next) then Some(Pending(CommandDelay, node.next.value)) else None)
      else if Truthy(node.next) then
        var pending :=
          if node.kind == Message && s.current == StartNode then Some(Pending(StartDelay, node.next.value))
          else if node.kind == Message && s.current != StartNode then Some(Pending(MessageDelay, node.next.value))
          else None;
        Effect(s.(messages := messages, showOptions := false), pending)
      else
        Effect(s.(messages := messages), None)
  }

  /** `handleOptionClick`: clear the transcript, hide the options, go to the target. */
  function OptionClicked(s: FlowState, target: string): FlowState {
    s.(current := target, messages := [], showOptions := false)
  }

  /** The option buttons under the transcript, present only when options are visible and the node has a list. */
  function OfferedOptions(flow: map<string, ChatNode>, s: FlowState): Option<seq<ChatOption>> {
    if s.showOptions && s.current in flow && flow[s.current].options.Some?
    then flow[s.current].options
    else None
  }

  /**
   * The expanded video's footer (fed with the current node's options) shows
   * exactly the buttons the chat panel offers, so a click on footer button i
   * is the `ClickOption(i)` event: its guard `options.length > 0` differs
   * from the panel's only on an empty list, where neither has a button.
   */
  lemma FooterMatchesPanel(flow: map<string, ChatNode>, s: FlowState)
    requires s.current in flow
    ensures FloatingVideo.FooterOptions(s.showOptions, flow[s.current].options) == OfferedOptions(flow, s).GetOr([])
  {
  }

  /** Entering an id missing from the table changes nothing and schedules nothing. */
  lemma EnterUnknownNode(flow: map<string, ChatNode>, s: FlowState, now: int)
    requires s.current !in flow
    ensures EntryEffect(flow, s, now) == Effect(s, None)
  {
  }

  /**
   * A non-command node with a message appends exactly one bot entry carrying
   * it; every other node leaves the transcript alone. The current node never
   * changes on entry.
   */
  lemma EnterTranscript(flow: map<string, ChatNode>, s: FlowState, now: int)
    requires s.current in flow
    ensures var r := EntryEffect(flow, s, now).state;
            var n := flow[s.current];
            && r.current == s.current
            && (n.kind != Command && Truthy(n.message) ==>
                  r.messages == s.messages + [Entry(EntryId(s.current, now), n.message.value, true)])
            && (n.kind == Command || !Truthy(n.message) ==> r.messages == s.messages)
  {
  }

  /** An options node shows the options, keeps the video and schedules nothing. */
  lemma EnterOptionsNode(flow: map<string, ChatNode>, s: FlowState, now: int)
    requires s.current in flow && flow[s.current].kind == Options
    ensures EntryEffect(flow, s, now).state.showOptions
    ensures EntryEffect(flow, s, now).state.videoUrl == s.videoUrl
    ensures EntryEffect(flow, s, now).pending == None
  {
  }

  /**
   * A command node hides the options, swaps the video only for
   * `setFloatingAvatarVideo` with a URL, and schedules its `next` after 300 ms.
   */
  lemma EnterCommandNode(flow: map<string, ChatNode>, s: FlowState, now: int)
    requires s.current in flow && flow[s.current].kind == Command
    ensures var n := flow[s.current];
            var r := EntryEffect(flow, s, now);
            && !r.state.showOptions
            && r.state.messages == s.messages
            && (n.command == Some(SetFloatingAvatarVideo) && n.params.Some? && Truthy(n.params.value.url) ==>
                  r.state.videoUrl == n.params.value.url.value)
            && (n.command != Some(SetFloatingAvatarVideo) || n.params.None? || !Truthy(n.params.value.url) ==>
                  r.state.videoUrl == s.videoUrl)
            && r.pending == (if Truthy(n.next) then Some(Pending(CommandDelay, n.next.value)) else None)
  {
  }

  /**
   * A message node with a `next` hides the options and advances after 1500 ms
   * from the start node and 2000 ms from any other; without a `next` it leaves
   * the options flag alone and schedules nothing.
   */
  lemma EnterMessageNode(flow: map<string, ChatNode>, s: FlowState, now: int)
    requires s.current in flow && flow[s.current].kind == Message
    ensures var n := flow[s.current];
            var r := EntryEffect(flow, s, now);
            && r.state.videoUrl == s.videoUrl
            && (Truthy(n.next) ==> !r.state.showOptions)
            && (Truthy(n.next) && s.current == StartNode ==> r.pending == Some(Pending(StartDelay, n.next.value)))
            && (Truthy(n.next) && s.current != StartNode ==> r.pending == Some(Pending(MessageDelay, n.next.value)))
            && (!Truthy(n.next) ==> r.state.showOptions == s.showOptions && r.pending == None)
  {
  }

  /** Options are offered exactly when they are visible and the current node has an option list. */
  lemma OfferedOptionsRule(flow: map<string, ChatNode>, s: FlowState)
    ensures OfferedOptions(flow, s).Some? <==>
              s.showOptions && s.current in flow && flow[s.current].options.Some?
    ensures OfferedOptions(flow, s).Some? ==> OfferedOptions(flow, s) == flow[s.current].options
  {
  }

  // ---------------------------------------------------------------------------
  // The running conversation: state plus the timers still in flight
  // ---------------------------------------------------------------------------

  datatype Runtime = Runtime(state: FlowState, timers: seq<Pending>)

  /** A user click on the i-th offered option, or the k-th pending timer firing. */
  datatype UiEvent = ClickOption(index: nat, now: int) | TimerFires(index: nat, now: int)

  /**
   * `setCurrentState(target)`: React re-renders and re-runs the entry effect
   * only when the value changes. Timers are never cancelled.
   */
  function SetCurrent(flow: map<string, ChatNode>, rt: Runtime, target: string, now: int): Runtime {
    if target == rt.state.current then rt
    else
      var e := EntryEffect(flow, rt.state.(current := target), now);
      Runtime(e.state, rt.timers + ToSeq(e.pending))
  }

  /** Mounting runs the entry effect on the start node. */
  function Mount(flow: map<string, ChatNode>, now: int): Runtime {
    var e := EntryEffect(flow, InitialState, now);
    Runtime(e.state, ToSeq(e.pending))
  }

  function Handle(flow: map<string, ChatNode>, rt: Runtime, ev: UiEvent): Runtime {
    match ev
    case ClickOption(i, now) =>
      var offered := OfferedOptions(flow, rt.state);
      if offered.Some? && i < |offered.value| then
        var cleared := rt.state.(messages := [], showOptions := false);
        SetCurrent(flow, rt.(state := cleared), offered.value[i].next, now)
      else rt
    case TimerFires(k, now) =>
      if k < |rt.timers| then
        SetCurrent(flow, rt.(timers := rt.timers[..k] + rt.timers[k + 1..]), rt.timers[k].target, now)
      else rt
  }

  function RunEvents(flow: map<string, ChatNode>, rt: Runtime, evs: seq<UiEvent>): Runtime
    decreases |evs|
  {
    if evs == [] then rt else RunEvents(flow, Handle(flow, rt, evs[0]), evs[1..])
  }

  predicate IsVideoNode(id: string) {
    id == "recepcao_video" || id == "napne_video" || id == "biblioteca_video"
  }

  /** The states this table can reach, each with the single timer it leaves in flight. */
  predicate Reachable(rt: Runtime) {
    var s := rt.state;
    && (s.videoUrl == ReceptionVideoUrl || s.videoUrl == NapneVideoUrl)
    && (|| (s.current == StartNode && !s.showOptions && rt.timers == [Pending(StartDelay, "introduction")])
        || (s.current == "introduction" && !s.showOptions && rt.timers == [Pending(MessageDelay, MenuNode)])
        || (s.current == MenuNode && s.showOptions && rt.timers == [])
        || (IsVideoNode(s.current) && !s.showOptions && rt.timers == [Pending(CommandDelay, MenuNode)]))
  }

  lemma MountReachable(now: int)
    ensures Reachable(Mount(ChatFlowTable, now))
    ensures Mount(ChatFlowTable, now).timers == [Pending(StartDelay, "introduction")]
  {
  }

  /**
   * At the menu, clicking option i lands on its video node with an empty
   * transcript (command nodes add no entry), plays that node's video and
   * leaves one 300 ms advance back to the menu.
   */
  lemma ClickVideoOption(rt: Runtime, i: nat, now: int)
    requires Reachable(rt) && rt.state.current == MenuNode
    requires i < |ChatFlowTable[MenuNode].options.value|
    ensures var target := ChatFlowTable[MenuNode].options.value[i].next;
            var r := Handle(ChatFlowTable, rt, ClickOption(i, now));
            && r.state.current == target
            && r.state.messages == []
            && !r.state.showOptions
            && r.state.videoUrl == ChatFlowTable[target].params.value.url.value
            && r.timers == [Pending(CommandDelay, MenuNode)]
  {
  }

  /**
   * The advance out of `start` lands on `introduction` with one 2000 ms
   * advance to the menu; the advance out of a video node lands on the menu
   * with options shown and no timer.
   */
  lemma TimerReachable(rt: Runtime, k: nat, now: int)
    requires Reachable(rt) && k < |rt.timers|
    ensures var r := Handle(ChatFlowTable, rt, TimerFires(k, now));
            rt.state.current == StartNode ==>
              r.state.current == "introduction" && r.timers == [Pending(MessageDelay, MenuNode)]
    ensures var r := Handle(ChatFlowTable, rt, TimerFires(k, now));
            IsVideoNode(rt.state.current) ==> r.state.current == MenuNode && r.state.showOptions && r.timers == []
    ensures Reachable(Handle(ChatFlowTable, rt, TimerFires(k, now)))
  {
    var s := rt.state;
    var target := rt.timers[k].target;
    assert rt.timers[..k] + rt.timers[k + 1..] == [];
    assert target != s.current;
    var e := EntryEffect(ChatFlowTable, s.(current := target), now);
    if target == "introduction" {
      assert ChatFlowTable[target] == ChatNode(Message, Some("lia"), Some(IntroductionText), None, Some(MenuNode), None, None);
      assert e.pending == Some(Pending(MessageDelay, MenuNode));
    } else {
      assert target == MenuNode;
      assert ChatFlowTable[target].kind == Options;
      assert e.pending == None;
    }
  }

  lemma HandleReachable(rt: Runtime, ev: UiEvent)
    requires Reachable(rt)
    ensures Reachable(Handle(ChatFlowTable, rt, ev))
  {
    match ev
    case ClickOption(i, now) =>
      var offered := OfferedOptions(ChatFlowTable, rt.state);
      if offered.Some? && i < |offered.value| {
        ClickVideoOption(rt, i, now);
      }
    case TimerFires(k, now) =>
      if k < |rt.timers| {
        TimerReachable(rt, k, now);
      }
  }

  lemma {:induction false} RunReachable(rt: Runtime, evs: seq<UiEvent>)
    requires Reachable(rt)
    ensures Reachable(RunEvents(ChatFlowTable, rt, evs))
    decreases |evs|
  {
    if evs != [] {
      HandleReachable(rt, evs[0]);
      RunReachable(Handle(ChatFlowTable, rt, evs[0]), evs[1..]);
    }
  }

  /**
   * With this table, after any sequence of clicks and timer firings, at most
   * one auto-advance is in flight, and options are offered exactly when none
   * is: no timer scheduled before an option click is still in flight when
   * the click happens.
   */
  lemma NoStaleAdvance(now: int, evs: seq<UiEvent>)
    ensures var rt := RunEvents(ChatFlowTable, Mount(ChatFlowTable, now), evs);
            && |rt.timers| <= 1
            && (OfferedOptions(ChatFlowTable, rt.state).Some? <==> rt.timers == [])
  {
    MountReachable(now);
    RunReachable(Mount(ChatFlowTable, now), evs);
  }

  /** The floating player only ever receives one of the two Vimeo ids of the table. */
  lemma PlayedVideoIds(now: int, evs: seq<UiEvent>)
    ensures var url := RunEvents(ChatFlowTable, Mount(ChatFlowTable, now), evs).state.videoUrl;
            FloatingVideo.VideoId(url) == "1129591813" || FloatingVideo.VideoId(url) == "1130092406"
  {
    MountReachable(now);
    RunReachable(Mount(ChatFlowTable, now), evs);
    assert ReceptionVideoUrl == "https://vimeo.com" + "/" + "1129591813";
    assert NapneVideoUrl == "https://vimeo.com" + "/" + "1130092406";
    FloatingVideo.VideoIdAfterSlash("https://vimeo.com", "1129591813");
    FloatingVideo.VideoIdAfterSlash("https://vimeo.com", "1130092406");
  }

  // ---------------------------------------------------------------------------
  // The component
  // ---------------------------------------------------------------------------

  class ChatView {
    var currentState: string
    var messages: seq<Entry>
    var showOptions: bool
    var floatingVideoUrl: string

    function State(): FlowState
      reads this
    {
      FlowState(currentState, messages, showOptions, floatingVideoUrl)
    }

    constructor ()
      ensures State() == InitialState
    {
      currentState := StartNode;
      messages := [];
      showOptions := false;
      floatingVideoUrl := InitialVideoUrl;
    }

    /** The node-entry effect; returns the auto-advance it schedules. */
    method RunEntryEffect(now: int) returns (pending: Option<Pending>)
      modifies this
      ensures Effect(State(), pending) == EntryEffect(ChatFlowTable, old(State()), now)
    {
      pending := None;
      if currentState !in ChatFlowTable {
        return;
      }
      var state := ChatFlowTable[currentState];
      if state.kind != Command && Truthy(state.message) {
        messages := messages + [Entry(EntryId(currentState, now), state.message.value, true)];
      }
      if state.kind == Options {
        showOptions := true;
      } else if state.kind == Command {
        if state.command == Some(SetFloatingAvatarVideo) && state.params.Some? && Truthy(state.params.value.url) {
          floatingVideoUrl := state.params.value.url.value;
        }
        showOptions := false;
        if Truthy(state.next) {
          pending := Some(Pending(CommandDelay, state.next.value));
        }
      } else if Truthy(state.next) {
        showOptions := false;
        if state.kind == Message && currentState == StartNode {
          pending := Some(Pending(StartDelay, state.next.value));
        } else if state.kind == Message && currentState != StartNode {
          pending := Some(Pending(MessageDelay, state.next.value));
        }
      }
    }

    /** `handleOptionClick(nextState)`. */
    method HandleOptionClick(nextState: string)
      modifies this
      ensures State() == OptionClicked(old(State()), nextState)
      ensures messages == [] && !showOptions && currentState == nextState
      ensures floatingVideoUrl == old(floatingVideoUrl)
    {
      messages := [];
      showOptions := false;
      currentState := nextState;
    }

    /** A scheduled advance firing: `setCurrentState(state.next)`. */
    method AdvanceFired(p: Pending)
      modifies this
      ensures State() == old(State()).(current := p.target)
    {
      currentState := p.target;
    }
  }
}
