# NeoTalk wayfinding chat — Dafny model

NeoTalk is a scripted, accessibility-oriented campus wayfinding chatbot. This
project models the three pieces of it that hold state machine logic, and
proves properties of them:

- **The conversation engine** (`Chat`, from `src/components/Chat.tsx`). A
  constant table maps node ids to `message`, `options` and `command` nodes.
  Entering a node may do three things. It may append the node's text to the
  transcript. It may show the option buttons. It may swap the floating avatar
  video. It may also schedule an automatic advance to `next` after 300, 1500
  or 2000 ms. Clicking an option clears the transcript and jumps to the
  option's target. A scheduled advance is a returned `Pending(delay, target)`
  value, not a real timer. A small runtime of state plus timers in flight
  lets the model prove properties over whole click-and-timer histories.
- **The floating video widget** (`FloatingVideo`, from
  `src/components/FloatingVideo.tsx`). It covers drag start, move and end by
  mouse or by a single touch, with the position clamped to
  `[0, W-280] x [0, H-350]`. It also covers the resize re-fit, which only
  takes a minimum, the expand/collapse flag, and the Vimeo id taken as the
  last `/`-separated segment of the video URL. The viewport size is a
  parameter.
- **The map drawer** (`NeoTalkMap`, from `src/components/NeoTalkMap.tsx`). It
  covers the drawer-open flag, the active tooltip and the active POI, the
  Escape and Tab focus-trap rules over a sequence of focusable elements, the
  pin-click rule for active and inactive POIs, the clear-tooltip-on-close
  effect, and the current-POI lookup with its fallback.

Each stateful component is a class whose fields are the component's React
state. Its methods are the event handlers. In `Chat` and `FloatingVideo`,
each method's postcondition ties the new state to a pure function of the old
state (`EntryEffect`, `DragMove`, …), and lemmas prove what those functions
promise. `Wrappers` holds the `Option` type.

`Chat.tsx` has three node kinds (message, options and command) and a fixed
300 ms delay after a command node; the model has exactly these.

## Model

| member | source | states |
|---|---|---|
| `Chat.TableClosed` | src/components/Chat.tsx:27-101 | the start node `start` exists; every `next` and every option target of the table is a key of the table; every options node has at least one option |
| `Chat.EntryEffect` | src/components/Chat.tsx:106-146 | the `[currentState]` effect: given the state after a render, the new state and the one advance it schedules; `EnterUnknownNode`, `EnterTranscript`, `EnterOptionsNode`, `EnterCommandNode` and `EnterMessageNode` state it case by case, and `ChatView.RunEntryEffect` is proved equal to it |
| `Chat.OptionClicked` | src/components/Chat.tsx:148-152 | `handleOptionClick`: the transcript is emptied, options are hidden, the target becomes current and the video is kept; `ChatView.HandleOptionClick` is proved equal to it |
| `Chat.OfferedOptions` | src/components/Chat.tsx:188 | the panel's gate `showOptions && currentChatState?.options`; stated by `OfferedOptionsRule` and tied to the footer by `FooterMatchesPanel` |
| `Chat.EnterUnknownNode` | src/components/Chat.tsx:107-108 | entering an id absent from the table leaves the state unchanged and schedules nothing |
| `Chat.EnterTranscript` | src/components/Chat.tsx:109-117 | a non-command node with a (non-empty) message appends exactly one bot entry with that text, keyed by node id and time, after the unchanged earlier entries; command nodes and nodes without text leave the transcript as it was; entry never changes the current node |
| `Chat.EnterOptionsNode` | src/components/Chat.tsx:119-120 | an options node sets options-visible, keeps the video URL and schedules no transition |
| `Chat.EnterCommandNode` | src/components/Chat.tsx:121-130 | a command node hides options and adds nothing to the transcript; the video URL becomes `params.url` exactly when the command is `setFloatingAvatarVideo` with a URL, else is kept; it schedules `next` after 300 ms iff `next` is present |
| `Chat.EnterMessageNode` | src/components/Chat.tsx:131-143 | a message node with `next` hides options and schedules `next` after 1500 ms from `start` and 2000 ms from any other node; without `next` it keeps options-visible and schedules nothing; the video is untouched |
| `Chat.OfferedOptionsRule` | src/components/Chat.tsx:188-191 | options are offered iff options-visible is set and the current node exists and has an option list, and then they are that node's list |
| `Chat.FooterMatchesPanel` | src/components/Chat.tsx:188-213 | the video overlay's footer, fed with the current node's options, shows exactly the buttons the chat panel offers, so a footer click is the same option click |
| `Chat.SetCurrent` | src/components/Chat.tsx:128-151 | `setCurrentState(target)`: setting the current value re-renders nothing and re-runs no effect; any other value runs `EntryEffect` on it and adds its advance to the timers in flight, none of which is ever cancelled; its consequences are stated by `ClickVideoOption` and `TimerReachable` |
| `Chat.Mount` | src/components/Chat.tsx:101-146 | mounting: the initial state plus the entry effect on `start`; stated by `MountReachable` |
| `Chat.Handle` | src/components/Chat.tsx:127-151 | one UI event: a click on option i of the panel, when offered, runs `handleOptionClick`; any timer in flight may fire, in any order, and sets its captured target; stated by `ClickVideoOption`, `TimerReachable` and `HandleReachable` |
| `Chat.MountReachable` | src/components/Chat.tsx:101-146 | mounting enters `start`, which leaves exactly one advance in flight: to `introduction` after 1500 ms |
| `Chat.ClickVideoOption` | src/components/Chat.tsx:121-152 | at the menu, clicking option i lands on that option's video node with an empty transcript, options hidden, the floating video set to that node's URL, and exactly one 300 ms advance back to the menu |
| `Chat.TimerReachable` | src/components/Chat.tsx:121-146 | the one timer in flight, on firing, moves `start` to `introduction` (one 2000 ms advance to the menu) or a video node to the menu (options shown, no timer) |
| `Chat.HandleReachable` | src/components/Chat.tsx:106-152 | with this table, an option click or a timer firing keeps the runtime in one of its four reachable shapes (at `start`, at `introduction`, at the menu with options shown and no timer, at a video command with one 300 ms timer back to the menu) |
| `Chat.RunReachable` | src/components/Chat.tsx:106-152 | the same holds after any sequence of clicks and timer firings |
| `Chat.NoStaleAdvance` | src/components/Chat.tsx:126-152 | after any history from mount, at most one auto-advance is in flight and options are offered exactly when none is, so no timer scheduled before an option click is still in flight when the click happens |
| `Chat.PlayedVideoIds` | src/components/Chat.tsx:60-104 | after any history, the video id the floating player receives is `1129591813` or `1130092406` |
| `Chat.ChatView.constructor` | src/components/Chat.tsx:101-104 | initial state: node `start`, empty transcript, options hidden, the reception video URL |
| `Chat.ChatView.RunEntryEffect` | src/components/Chat.tsx:106-146 | the imperative node-entry effect produces exactly the state and pending advance of `EntryEffect` |
| `Chat.ChatView.HandleOptionClick` | src/components/Chat.tsx:148-152 | an option click empties the transcript, hides options, sets the current node to the target and leaves the video URL unchanged |
| `Chat.ChatView.AdvanceFired` | src/components/Chat.tsx:127-142 | a scheduled advance firing sets the current node to its target and changes nothing else |
| `FloatingVideo.ClampCoord` | src/components/FloatingVideo.tsx:36-37 | `max(0, min(limit, v))` is never negative, is at most `limit` when `limit >= 0`, equals `v` inside `[0, limit]`, is 0 below it and `max(limit, 0)` above it |
| `FloatingVideo.DragTarget` | src/components/FloatingVideo.tsx:33-37 | a drag move lands at `x >= 0`, `y >= 0`, with `x <= W-280` when `W >= 280` and `y <= H-350` when `H >= 350`; when the unclamped target (anchor start plus pointer delta) is in bounds it lands exactly there |
| `FloatingVideo.Initial` | src/components/FloatingVideo.tsx:15-18 | the initial `useState` values: collapsed, not dragging, at `(W-300, H-370)`; stated by `InitialInBounds` and `AutoOpenExpands` |
| `FloatingVideo.Mounted` | src/components/FloatingVideo.tsx:104-108 | the `[autoOpen]` effect sets the expanded flag to `autoOpen`; stated by `AutoOpenExpands` |
| `FloatingVideo.DragStart` | src/components/FloatingVideo.tsx:20-28 | `handleDragStart`; stated by `DragStartAnchors` |
| `FloatingVideo.DragMove` | src/components/FloatingVideo.tsx:30-40 | `handleDragMove`; stated by `DragMoveIdle`, `DragMoveBounds` and `DragMoveNoDrift` |
| `FloatingVideo.DragEnd` | src/components/FloatingVideo.tsx:42-44 | `handleDragEnd`; stated by `DragEndKeepsPosition` |
| `FloatingVideo.TouchStart` | src/components/FloatingVideo.tsx:54-61 | the touch-start handler; stated by `SingleTouchOnly` |
| `FloatingVideo.TouchMove` | src/components/FloatingVideo.tsx:72-78 | the touch-move listener; stated by `SingleTouchOnly` |
| `FloatingVideo.Resized` | src/components/FloatingVideo.tsx:111-117 | the resize listener; stated by `ResizeCaps` and `ResizeMayGoNegative` |
| `FloatingVideo.WithExpanded` | src/components/FloatingVideo.tsx:233-236 | the maximise, minimise and close buttons; stated by `ExpandCollapseRoundTrip` |
| `FloatingVideo.DragStartAnchors` | src/components/FloatingVideo.tsx:20-28 | drag start sets dragging, records the pointer and the current position as the anchor, and does not move the widget |
| `FloatingVideo.DragMoveIdle` | src/components/FloatingVideo.tsx:30-31 | a move while not dragging changes nothing |
| `FloatingVideo.DragMoveBounds` | src/components/FloatingVideo.tsx:30-40 | a drag move never puts the widget left of or above the viewport, keeps it inside whenever the viewport fits it, and keeps the drag going with the same anchor |
| `FloatingVideo.DragMoveNoDrift` | src/components/FloatingVideo.tsx:33-39 | two moves in one drag give the same position as the last alone: the position depends only on the anchor and the latest pointer |
| `FloatingVideo.DragEndKeepsPosition` | src/components/FloatingVideo.tsx:42-44 | drag end clears dragging and keeps the position and the expanded flag |
| `FloatingVideo.SingleTouchOnly` | src/components/FloatingVideo.tsx:54-78 | touch start and touch move do nothing unless exactly one touch is present, and then act as the mouse drag start and move at that touch |
| `FloatingVideo.ResizeCaps` | src/components/FloatingVideo.tsx:111-117 | resize never increases a coordinate, caps it at `W-280` / `H-350`, keeps a coordinate already within the cap, and otherwise sets it to the cap |
| `FloatingVideo.ResizeMayGoNegative` | src/components/FloatingVideo.tsx:112-117 | resize has no lower clamp: at (0,0), a 200 x 300 viewport moves the widget to (-80,-50) |
| `FloatingVideo.ExpandCollapseRoundTrip` | src/components/FloatingVideo.tsx:164-196 | expanding sets only the expanded flag; expand then collapse restores the collapsed widget exactly, position included |
| `FloatingVideo.AutoOpenExpands` | src/components/FloatingVideo.tsx:103-108 | after mount, expanded equals `autoOpen` and the position is the initial one |
| `FloatingVideo.InitialInBounds` | src/components/FloatingVideo.tsx:16 | the initial position `(W-300, H-370)` is inside the viewport iff the viewport is at least 300 x 370 |
| `FloatingVideo.Step` | src/components/FloatingVideo.tsx:47-120 | one event delivered to the widget: mouse and touch handlers, the document listeners, a window resize, expand and collapse; stated by `StepStaysInBounds` and `RunStaysInBounds` |
| `FloatingVideo.StepStaysInBounds` | src/components/FloatingVideo.tsx:20-117 | any single mouse, touch, resize or expand event keeps an in-bounds widget in bounds while every viewport fits it |
| `FloatingVideo.RunStaysInBounds` | src/components/FloatingVideo.tsx:20-117 | any sequence of such events keeps the widget in bounds, for every intermediate and final frame |
| `FloatingVideo.MountedRunStaysInBounds` | src/components/FloatingVideo.tsx:14-117 | from mount on a viewport of at least 300 x 370, the widget stays in bounds through any history whose resizes fit it |
| `FloatingVideo.Split` | src/components/FloatingVideo.tsx:134 | `split('/')` always yields at least one part, so `pop()` always yields a string |
| `FloatingVideo.VideoId` | src/components/FloatingVideo.tsx:134 | `videoUrl.split('/').pop()`; stated by `VideoIdIsLastSegment` and `VideoIdAfterSlash` |
| `FloatingVideo.SplitJoin` | src/components/FloatingVideo.tsx:134 | joining the parts of a split with the separator gives back the string, and no part contains the separator |
| `FloatingVideo.VideoIdIsLastSegment` | src/components/FloatingVideo.tsx:134 | the video id is the longest `/`-free suffix of the URL: a suffix without `/` that is the whole URL or is preceded by `/` |
| `FloatingVideo.VideoIdAfterSlash` | src/components/FloatingVideo.tsx:247 | for any base and any `/`-free id, the id of `base + "/" + id` is exactly `id` |
| `FloatingVideo.FooterOptions` | src/components/FloatingVideo.tsx:145 | the expanded overlay shows option buttons iff options are visible and the option list is present and non-empty, and then shows that list; `Chat.FooterMatchesPanel` ties it to the chat panel |
| `FloatingVideo.FloatingVideoWidget.constructor` | src/components/FloatingVideo.tsx:14-18 | mount: collapsed unless `autoOpen`, not dragging, at `(W-300, H-370)` |
| `FloatingVideo.FloatingVideoWidget.HandleDragStart` | src/components/FloatingVideo.tsx:20-28 | the handler's new state is `DragStart` of the old one |
| `FloatingVideo.FloatingVideoWidget.HandleDragMove` | src/components/FloatingVideo.tsx:30-40 | the handler's new state is `DragMove` of the old one |
| `FloatingVideo.FloatingVideoWidget.HandleDragEnd` | src/components/FloatingVideo.tsx:42-44 | the handler's new state is `DragEnd` of the old one |
| `FloatingVideo.FloatingVideoWidget.HandleTouchStart` | src/components/FloatingVideo.tsx:54-61 | the handler's new state is `TouchStart` of the old one (single-touch filter) |
| `FloatingVideo.FloatingVideoWidget.HandleTouchMove` | src/components/FloatingVideo.tsx:72-78 | the handler's new state is `TouchMove` of the old one (single-touch filter) |
| `FloatingVideo.FloatingVideoWidget.HandleResize` | src/components/FloatingVideo.tsx:111-117 | the handler's new state is `Resized` of the old one |
| `FloatingVideo.FloatingVideoWidget.SetExpanded` | src/components/FloatingVideo.tsx:233-236 | the maximise, minimise and close buttons change only the expanded flag |
| `NeoTalkMap.OnlyLibraryInactive` | src/components/NeoTalkMap.tsx:12-15 | in the POI table exactly `biblioteca` is inactive |
| `NeoTalkMap.FindIndex` | src/components/NeoTalkMap.tsx:194 | the search finds the first POI with the id, and finds none exactly when no POI has it |
| `NeoTalkMap.Find` | src/components/NeoTalkMap.tsx:194 | `POIS.find(...)`: the first POI with the id, none iff absent; stated through `FindIndex` |
| `NeoTalkMap.CurrentPoi` | src/components/NeoTalkMap.tsx:193-196 | `find(...) ?? POIS[0]`; stated by `CurrentPoiLookup` and `CurrentPoiOfTable` |
| `NeoTalkMap.CurrentPoiLookup` | src/components/NeoTalkMap.tsx:193-196 | the current POI is a table entry: the one with the active id when there is one, else the first POI |
| `NeoTalkMap.CurrentPoiOfTable` | src/components/NeoTalkMap.tsx:193-196 | with the fixed three-POI table the fallback is never needed: the current POI always has the active id |
| `NeoTalkMap.Focusable` | src/components/NeoTalkMap.tsx:93-95 | the focusable list holds only candidates without a `disabled` attribute, and every such candidate |
| `NeoTalkMap.FocusableSingle` | src/components/NeoTalkMap.tsx:93-95 | the filter keeps an enabled element and drops a disabled one |
| `NeoTalkMap.FocusableConcat` | src/components/NeoTalkMap.tsx:93-95 | the filter distributes over concatenation, so it keeps document order and duplicates |
| `NeoTalkMap.FocusableFirst` | src/components/NeoTalkMap.tsx:93-98 | the Tab rule's `first` is the first enabled candidate in document order |
| `NeoTalkMap.FocusableLast` | src/components/NeoTalkMap.tsx:93-98 | the Tab rule's `last` is the last enabled candidate in document order |
| `NeoTalkMap.TabTarget` | src/components/NeoTalkMap.tsx:97-117 | the Tab branch of `handleKeyDown` over the filtered list; stated by `TabRule`, `TabStaysInDrawer` and `InitialFocusAgreesWithTab` |
| `NeoTalkMap.TabRule` | src/components/NeoTalkMap.tsx:97-117 | with an empty list Tab does nothing; focus outside the drawer moves to the first element; Tab on the last moves to the first; Shift-Tab on the first moves to the last; any other case moves nothing |
| `NeoTalkMap.TabStaysInDrawer` | src/components/NeoTalkMap.tsx:88-117 | whenever the Tab handler moves focus, it moves it to an enabled element of the drawer |
| `NeoTalkMap.InitialFocus` | src/components/NeoTalkMap.tsx:126-137 | the effect on `isDrawerOpen` moves focus iff the drawer is open, mounted and has a candidate, and then to its first candidate, disabled or not |
| `NeoTalkMap.InitialFocusAgreesWithTab` | src/components/NeoTalkMap.tsx:97-137 | when the first candidate is enabled, opening the drawer focuses the same element as a Tab pressed from outside the drawer |
| `NeoTalkMap.NeoTalkMapView.constructor` | src/components/NeoTalkMap.tsx:52-55 | initial state: drawer open iff `defaultOpen`, no tooltip, active POI `recepcao` |
| `NeoTalkMap.NeoTalkMapView.OnMount` | src/components/NeoTalkMap.tsx:62-67 | on mount, `onPoiOpen` gets the active POI iff the drawer starts open, and an open drawer focuses its first candidate |
| `NeoTalkMap.NeoTalkMapView.SetDrawerOpen` | src/components/NeoTalkMap.tsx:126-152 | whenever the drawer goes from open to closed the tooltip is cleared, otherwise it is kept; focus moves to the first candidate exactly when the drawer goes from closed to open |
| `NeoTalkMap.NeoTalkMapView.CloseTooltip` | src/components/NeoTalkMap.tsx:69-71 | `closeTooltip(p)` clears the tooltip iff it is `p`, else leaves it unchanged |
| `NeoTalkMap.NeoTalkMapView.HandleKeyDown` | src/components/NeoTalkMap.tsx:73-120 | Escape always leaves the drawer closed, and an Escape that closes it clears the tooltip; with the drawer closed no key moves focus; with it open, Tab moves focus as `TabTarget` over the enabled candidates (nothing when the drawer is unmounted) |
| `NeoTalkMap.NeoTalkMapView.OpenDrawerForPoi` | src/components/NeoTalkMap.tsx:174-181 | sets the active POI, opens the drawer, keeps the tooltip, notifies `onPoiOpen` with the POI; a drawer that was closed takes focus |
| `NeoTalkMap.NeoTalkMapView.ToggleDrawer` | src/components/NeoTalkMap.tsx:183-191 | flips the drawer; notifies the active POI iff the result is open; closing clears the tooltip; opening focuses the first candidate |
| `NeoTalkMap.NeoTalkMapView.ClickPin` | src/components/NeoTalkMap.tsx:259-264 | a pin click always shows that POI's tooltip; an active POI opens the drawer on it, notifies, and focuses the drawer if it was closed, while an inactive one changes neither drawer nor active POI and moves no focus |
| `NeoTalkMap.NeoTalkMapView.FocusPin` | src/components/NeoTalkMap.tsx:265 | focusing a pin shows its tooltip |
| `NeoTalkMap.NeoTalkMapView.MouseDownAnywhere` | src/components/NeoTalkMap.tsx:154-172 | a mouse press with a target outside every pin clears the tooltip; a press on a pin or without a target keeps it |
| `NeoTalkMap.NeoTalkMapView.CurrentPoiShown` | src/components/NeoTalkMap.tsx:193-196 | the POI named in the drawer is a table entry with the active id |
| `NeoTalkMap.LibraryPinScenario` | src/components/NeoTalkMap.tsx:12-15 | clicking the inactive `biblioteca` pin notifies nothing, moves no focus, and leaves the drawer and active POI as they were |

## Left out

- Real timers and `Date.now()`. An auto-advance is a returned `Pending(delay, target)`. A firing is an event. A transcript key is the node id plus a caller-supplied time. Timers are never cancelled, as in the code.
- React scheduling details. The model takes batched state updates, and effects running after a render only when their dependency changed. Double invocation of state updaters in development mode is not modelled.
- DOM plumbing. This covers registering and removing listeners, `preventDefault` and `stopPropagation`, `querySelectorAll`, `element.focus()` and `document.body.style.overflow`. Focusable elements are a sequence of ids with a disabled flag. The active element is an id plus whether the drawer contains it. A focus move is a returned element id.
- Viewport queries. `window.innerWidth` and `window.innerHeight` are a `Viewport` parameter.
- Fractional pixels. Pointer coordinates are whole pixels, although browsers may report fractional touch coordinates.
- Rendering. This covers JSX markup, CSS, icons as graphics, the header and campus images, the legend and room layout of the map, and the construction of the Vimeo player address around the video id. Playback belongs to the third-party player.
- The `defaultOpen` prop changing after mount (src/components/NeoTalkMap.tsx:58-60). It has the same effect as `SetDrawerOpen(defaultOpen)` and has no method of its own.
- Default props. `defaultOpen = true` (src/components/NeoTalkMap.tsx:52) and `autoOpen = false` (src/components/FloatingVideo.tsx:14) are not defaults in the model: the constructors take both flags as required arguments.
- The close button of the drawer (src/components/NeoTalkMap.tsx:370). It is `SetDrawerOpen(false)`.
- Pinch-to-resize of the floating widget. It is requested in a comment and implemented nowhere.
- `src/components/ChatBubble.tsx` and `src/components/FloorMap.tsx`. They are presentation only: locale time formatting, and a dialog with one open flag.
