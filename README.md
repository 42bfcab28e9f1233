# twmnd popup sequencer, modelled in Dafny

twmnd is a notification daemon. It receives XML datagrams over UDP and turns
each one into a `Message`, which maps field names to optional values. It queues
the messages and shows them one at a time in a popup anchored to a corner of
the screen. The popup's width runs from 0 up to the message's width, stays
there for a while, then runs back to 0.

This project models the core of `twmnd/widget.cpp`:

- **Message intake** (module `Messages`). `onDataReceived` copies the root's
  children into the message. The copy loop is `FillFields`, specified by
  `FieldsOf`. An `icon` field is then resolved through a three-way fallback
  (`ResolveIcon`, `WithIcon`). The message is pushed even when the XML read
  throws. `Intake` is the message the handler pushes.
- **Labels and width** (module `Labels`). `setupIcon`, `setupTitle` and
  `setupContent` become `IconLabel`, `TitleText` and `ContentText`.
  `computeWidth` becomes `ComputeWidth`.
- **Corner geometry** (module `Geometry`). The four `update*Animation` slots
  become one function each, and `FrameGeometry` dispatches between them.
  `PositionOf` is the constructor's choice of slot from `gui/position`.
- **The display state machine** (module `Display`). `Widget` is a class. Its
  fields are the queue, the labels, the animation state, the scheduled timers
  and the widget's rectangle. Each slot is a method:
  - `OnDataReceived`, `ProcessMessageQueue`, `ReverseTrigger`, `ReverseStart`;
  - `AnimationFinished`, the `finished` signal;
  - `OnValueChanged`, the `valueChanged` signal;
  - `Fire`, a `QTimer::singleShot` timer going off, which dispatches to
    `FireProcessQueue` or `FireReverseStart`.

  Three ghost logs help state FIFO order: `arrived`, `shown` and `retired`.
  `Valid()` is the object invariant. It says four things:
  - the widget is in exactly one phase: `Idle`, `ForwardRun`, `Holding` or
    `BackwardRun`;
  - `arrived == retired + queue`;
  - a forward run starts only after every earlier message was popped;
  - the labels show the last message whose run started.

The collaborators are passed in as an `Environment` value (module `Foreign`):
- the settings, as a string map;
- `QPixmap(path)` loading;
- the 15×15 `QPixmap::copy`;
- the two `QFontMetrics::width` functions.

They are total functions with no other assumptions.

The animation is modelled as a state: direction, easing, running or not,
current time, and start and end values. `Start` follows
`QAbstractAnimation::start`:
- it does nothing when the animation is already running;
- otherwise the current time is reset to 0 going forward and to 1000 going
  backward.

`Finish` stops the animation at the end it ran to. So the 50 ms guard at
line 126 reads `TOTAL_DURATION - currentTime < END_GUARD` exactly as written.
When the animation is stopped, the guard blocks precisely in the hold phase
(`StoppedGuard`, `GuardOpenExactlyWhenIdle`).

The model follows the code as written; note in particular:
- A datagram that fails to parse still enqueues a message. That message is
  empty, or filled up to the point of the exception.
- The icon path configured under `icons/<name>` is used without a null
  check. The result can therefore be a null pixmap (`ConfiguredIconMayBeNull`).
- The head of the queue is popped when the forward run ends, not at the end
  of the cycle.
- The title is measured with the regular font, although its label is set
  bold. The content is measured with the bold font.
- The placeholder for an unresolvable icon is built from an uninitialized
  `QImage(1, 1, Format_ARGB32)` (line 107). Filling it with white of alpha 0
  under QPainter's default SourceOver composition (lines 108-111) leaves the
  pixel unchanged. The placeholder is therefore one pixel of unspecified
  colour, not a transparent one (`Placeholder`, `PlaceholderMayBeOpaque`).
  This observation comes from reading the code and Qt's documented
  behaviour; nothing was run.

## Model

| member | source | states |
|---|---|---|
| Messages.FieldsOf | twmnd/widget.cpp:92-95 | defining equation: the fields after assigning the children in order, each assignment overwriting an earlier one of the same name |
| Messages.FillFields | twmnd/widget.cpp:92-95 | the loop's map is exactly the fold `FieldsOf` of the children in order |
| Messages.FieldsOfDomain | twmnd/widget.cpp:92-95 | a name is a field exactly when some child carries it |
| Messages.FieldsOfLastWins | twmnd/widget.cpp:92-95 | a field's value is the text of the last child of that name (later assignments overwrite) |
| Messages.ResolveIcon | twmnd/widget.cpp:100-116 | the direct pixmap if it loads; else the pixmap at the configured `icons/<name>` path, with no null check; else the 1×1 placeholder |
| Foreign.Placeholder | twmnd/widget.cpp:107-112 | the placeholder is a non-null 1×1 image with one pixel; the pixel is whatever the uninitialized buffer held |
| Foreign.PlaceholderMayBeOpaque | twmnd/widget.cpp:107-112 | there is an environment in which the placeholder's pixel is fully opaque, so the placeholder is not reliably transparent |
| Messages.NullIconOnlyFromConfiguredPath | twmnd/widget.cpp:100-116 | the resolved icon is null iff the direct load fails, a path is configured and that path fails too |
| Messages.ConfiguredIconMayBeNull | twmnd/widget.cpp:103-105 | there is an environment in which the resolved icon is a null pixmap |
| Messages.WithIcon | twmnd/widget.cpp:100-116 | `icon` is always a key afterwards; a present icon is replaced by its resolved pixmap, an absent one reads as empty; every other field is kept |
| Messages.Intake | twmnd/widget.cpp:84-117 | the pushed message is `WithIcon` of the fold of the children assigned before the read ended or threw; it always has an `icon` key |
| Messages.BuildMessage | twmnd/widget.cpp:82-116 | the message built by the handler is `Intake` of the read outcome |
| Messages.IntakeFields | twmnd/widget.cpp:84-99 | every non-icon field of the pushed message is present iff a child was assigned under that name, and its value is the last such child's text |
| Messages.IntakeIcon | twmnd/widget.cpp:100-116 | the pushed `icon` is empty without an `icon` child, otherwise the icon resolved from the last one |
| Messages.IntakeAfterEarlyFailure | twmnd/widget.cpp:84-117 | when `read_xml` or `get_child` throws, the message pushed holds only the empty `icon` entry |
| Labels.IconLabel | twmnd/widget.cpp:212-220 | defining equation: the 15×15 crop of the icon when the message has one, else the null pixmap |
| Labels.TitleText | twmnd/widget.cpp:222-233 | empty without a title; otherwise the title as the suffix, preceded by one space exactly when there is an icon |
| Labels.TitleTextRoundTrip | twmnd/widget.cpp:222-233 | the title can be read back from the title label, given whether an icon is shown |
| Labels.ContentText | twmnd/widget.cpp:235-242 | empty without content; otherwise the content with exactly one space before and after it |
| Labels.Setup | twmnd/widget.cpp:132-134 | defining equation: the icon, title and text labels set up for a message are `IconLabel`, `TitleText` and `ContentText` of it |
| Labels.ComputeWidth | twmnd/widget.cpp:199-210 | defining equation: the title label's width under the regular font plus the text label's width under the bold font, plus the shown icon's width when the message has an icon |
| Labels.WidthOfEmptyMessage | twmnd/widget.cpp:199-210 | no title, content or icon, and zero-width empty strings, give width 0 |
| Labels.WidthOfTitleOnly | twmnd/widget.cpp:199-210 | with only a title, the width is the title's regular-font width |
| Labels.UnknownFieldsUnused | twmnd/widget.cpp:199-242 | fields other than icon, title and content change no label and no width |
| Labels.BuildOkWidth | twmnd/widget.cpp:79-117 | the datagram with title `Build` and content `OK` gives width regular("Build") + bold(" OK ") |
| Geometry.PositionOf | twmnd/widget.cpp:40-51 | a corner is chosen exactly when the setting is that corner's name; any other value connects no slot |
| Geometry.PositionOfCornerName | twmnd/widget.cpp:40-51 | each corner is selected by its own name |
| Geometry.TopLeftGeometry | twmnd/widget.cpp:146-151 | only the width changes, to v |
| Geometry.TopRightGeometry | twmnd/widget.cpp:153-160 | width v, height h, top edge 0, right edge at the screen width |
| Geometry.BottomRightGeometry | twmnd/widget.cpp:162-170 | width v, height h, right edge at the screen width, bottom edge at the screen height |
| Geometry.BottomLeftGeometry | twmnd/widget.cpp:172-179 | width v, height h, left edge 0, bottom edge at the screen height |
| Geometry.FrameGeometry | twmnd/widget.cpp:146-179 | defining equation: the slot connected for the corner gives the rectangle for value v, with the widget's own height |
| Geometry.FrameGeometryAnchors | twmnd/widget.cpp:146-179 | in every corner the width is v and the height unchanged; right-anchored corners keep the right edge at W, bottom-anchored ones the bottom edge at H |
| Display.Start | twmnd/widget.cpp:140 | start leaves a running animation alone and otherwise runs it from 0 (forward) or the total duration (backward), keeping direction, curve and values |
| Display.Finish | twmnd/widget.cpp:39 | a finished run is stopped at the end its direction runs to |
| Display.StartBlocked | twmnd/widget.cpp:126 | defining equation: the guard blocks iff the animation runs or fewer than 50 ms remain before its total duration |
| Display.StoppedGuard | twmnd/widget.cpp:126 | for a stopped animation at either end, the guard blocks iff it stands at the forward end |
| Display.Widget.constructor | twmnd/widget.cpp:17-53 | an idle widget with an empty queue; the slot is chosen from `gui/position`; the direction is Forward and the curve OutBounce |
| Display.Widget.OnDataReceived | twmnd/widget.cpp:79-120 | exactly one message, `Intake` of the read outcome, is appended at the tail whether or not the read threw; earlier entries are unchanged; one processMessageQueue is scheduled; the invariant is kept |
| Display.Widget.ProcessMessageQueue | twmnd/widget.cpp:122-144 | it does nothing when the queue is empty, the animation runs or fewer than 50 ms remain; otherwise it sets up the labels for the head and runs forward from 0 to `ComputeWidth` of the head with OutBounce; the queue is never touched |
| Display.Widget.ReverseTrigger | twmnd/widget.cpp:181-190 | after a backward run it schedules processMessageQueue and leaves the queue alone; after a forward run it schedules reverseStart and pops exactly the head |
| Display.Widget.ReverseStart | twmnd/widget.cpp:192-197 | the direction becomes Backward, the curve InCubic, and the animation is started |
| Display.Widget.AnimationFinished | twmnd/widget.cpp:181-190 | a forward run ends in Holding with the head popped (so the pop is on a non-empty queue); a backward run ends in Idle with the queue untouched; the invariant is kept |
| Display.Widget.FireProcessQueue | twmnd/widget.cpp:119-127 | the processMessageQueue timer (scheduled at lines 119 and 184) starts a forward run for the head exactly when the widget is Idle with a message waiting, and otherwise changes nothing; the invariant is kept |
| Display.Widget.FireReverseStart | twmnd/widget.cpp:187-197 | the reverseStart timer (scheduled at line 187) can only be pending in Holding, and firing it leads to BackwardRun with the queue untouched |
| Display.Widget.Fire | twmnd/widget.cpp:181-197 | a firing processMessageQueue starts a forward run exactly when the widget is Idle with a message waiting, and otherwise changes nothing; reverseStart fires only in Holding and leads to BackwardRun |
| Display.Widget.OnValueChanged | twmnd/widget.cpp:146-179 | the connected slot shows the widget and sets the rectangle `FrameGeometry` gives; without a slot nothing changes |
| Display.GuardOpenExactlyWhenIdle | twmnd/widget.cpp:122-127 | under the invariant, a new cycle can start exactly from Idle |
| Display.ForwardRunHasHead | twmnd/widget.cpp:124-140 | a running forward animation always has a message at the head |
| Display.ShownInArrivalOrder | twmnd/widget.cpp:117-190 | retired ⊑ shown ⊑ arrived as prefixes, with at most one message on show beyond the retired ones |
| Display.FirstRunEndValue | twmnd/widget.cpp:117-140 | a datagram reaching a fresh widget, followed by the processMessageQueue timer, runs the popup forward to exactly `ComputeWidth` of the pushed message |
| Display.TwoMessagesBackToBack | twmnd/widget.cpp:117-197 | scenario: with two datagrams queued, the first runs forward, is popped, holds and runs back before the second one's forward run starts |

## Left out

- Stylesheet, colours, font and DPI setup, and `QApplication::setFont`
  (lines 19-31). These are presentation only. Fonts enter only through the
  two width functions.
- The `init` timer, the socket bind, the `readyRead` wiring and the layout
  and label construction (lines 33, 60-77). These are I/O and GUI plumbing,
  so the constructor schedules no timer.
- Reading the datagram and the XML parser (lines 85-90). They become
  `ReadOutcome`: either the children read in full, or the children assigned
  before an exception.
- Character encoding, and the truncation at an embedded NUL done by
  `istringstream(data.data())` and `c_str()`.
- The standard-output logging (lines 93 and 98).
- Pixmap loading and the 15×15 crop (lines 101, 105, 217). They are
  functions of the environment.
- The placeholder's pixel (lines 107-112). It is the environment's
  `unsetPixel`, with no constraint on its value. Only the image's size and
  that it is not null are modelled.
- Font metrics (lines 205-206). They are the environment's `regularWidth`
  and `boldWidth`.
- The settings store (`settings.h` is not part of this model). It is a
  string map, and a missing key reads as the empty string. `gui/height` is
  passed to the constructor already converted to an integer.
- The easing curves' shapes, the per-frame interpolation and the 1000 ms of
  real time.
  - Only the curve names and the discrete start and finish events are kept.
  - `OnValueChanged` accepts any animated value.
  - While a run is in progress, its current time is not tracked.
- The timer delays (30 ms and `main/duration`). A scheduled slot is an
  element of the `pending` multiset, and `Fire` may run any pending slot.
  The model therefore allows every interleaving that real timing would
  allow, and more.
- The order in which the animation group and its child report the end of a
  run. `reverseTrigger` reads only the direction, so this is not observable.
- The sound command (lines 141-143). It is an external process.
- `show()` as a side effect beyond the `visible` flag, `layout()->setSpacing`,
  the bold font set on the title label (line 229), and Qt's clamping of
  widget sizes to their minimum and maximum.
- The `m.data["title"]` lookup in `setupTitle` (line 227) and the
  `m.data["content"]` lookup in `setupContent` (line 238) insert empty
  entries into the queue head. No later read can tell an empty entry from a missing key,
  so these insertions are not modelled.
- The unused `height` and `Message m` locals of `processMessageQueue`
  (lines 130-131).
