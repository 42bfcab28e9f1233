/** The display sequencer of Widget: the message queue, the width animation
    and the slots that drive it. The animation is reduced to what the slots
    observe: its direction, easing curve, start and end values, whether it
    runs, and its current time when it stands still. Frames in between and
    real time are not modelled; a finished run and a timer firing are events. */
module Display {
  import opened Foreign
  import opened Messages
  import opened Labels
  import opened Geometry

  datatype Direction = Forward | Backward

  datatype Easing = OutBounce | InCubic

  /** The animation's total duration in milliseconds. */
  const TOTAL_DURATION: int := 1000

  /** processMessageQueue starts no cycle while fewer milliseconds than this
      remain before the animation's end. */
  const END_GUARD: int := 50

  /** The width of a new top-level widget before anything resizes it. */
  const DEFAULT_WIDTH: int := 640

  /** The state of m_animation and of the one property animation it holds
      (no start or end value is set before the first cycle). */
  datatype Animation = Animation(
    direction: Direction,
    easing: Easing,
    running: bool,
    currentTime: int,
    startValue: Option<int>,
    endValue: Option<int>)

  /** QAbstractAnimation::start: a running animation is left alone; a stopped
      one runs from the end its direction starts at. */
  function Start(a: Animation): (r: Animation)
    ensures r.running
    ensures r.direction == a.direction && r.easing == a.easing
    ensures r.startValue == a.startValue && r.endValue == a.endValue
    ensures a.running ==> r.currentTime == a.currentTime
    ensures !a.running ==> r.currentTime == (if a.direction == Forward then 0 else TOTAL_DURATION)
  {
    if a.running then a
    else a.(running := true, currentTime := if a.direction == Forward then 0 else TOTAL_DURATION)
  }

  /** A run reaching its end: the animation stops at the end it ran to. */
  function Finish(a: Animation): (r: Animation)
    ensures !r.running
    ensures r.direction == a.direction && r.easing == a.easing
    ensures r.startValue == a.startValue && r.endValue == a.endValue
    ensures r.currentTime == (if a.direction == Forward then TOTAL_DURATION else 0)
  {
    a.(running := false, currentTime := if a.direction == Forward then TOTAL_DURATION else 0)
  }

  /** The guard of processMessageQueue: the animation runs, or fewer than
      END_GUARD milliseconds of it remain. */
  predicate StartBlocked(a: Animation) {
    a.running || TOTAL_DURATION - a.currentTime < END_GUARD
  }

  /** Standing still, the guard blocks exactly at the forward end. */
  lemma StoppedGuard(a: Animation)
    requires !a.running && (a.currentTime == 0 || a.currentTime == TOTAL_DURATION)
    ensures StartBlocked(a) <==> a.currentTime == TOTAL_DURATION
  {
  }

  /** A slot that QTimer::singleShot has scheduled and that has not fired. */
  datatype Callback = ProcessQueueTimer | ReverseStartTimer

  class Widget {
    const env: Environment
    /** The update*Animation slot connected to valueChanged, if any. */
    const position: Option<Corner>

    /** m_messageQueue. */
    var queue: seq<Message>
    /** The labels m_contentView holds. */
    var view: View
    var anim: Animation
    /** Timers scheduled and not yet fired. */
    var pending: multiset<Callback>
    var geometry: Rect
    var visible: bool

    /** Every message pushed, every message whose forward run started, and
        every message popped, each in order. */
    ghost var arrived: seq<Message>
    ghost var shown: seq<Message>
    ghost var retired: seq<Message>

    /** No cycle in progress. */
    ghost predicate Idle()
      reads this
    {
      !anim.running && anim.currentTime == 0 && ReverseStartTimer !in pending
    }

    /** The popup grows for the message at the head of the queue. */
    ghost predicate ForwardRun()
      reads this
    {
      anim.running && anim.direction == Forward && queue != [] && ReverseStartTimer !in pending
    }

    /** The popup stands at full width; its message is already popped and
        exactly one reverseStart is scheduled. */
    ghost predicate Holding()
      reads this
    {
      && !anim.running && anim.direction == Forward && anim.currentTime == TOTAL_DURATION
      && pending[ReverseStartTimer] == 1
    }

    /** The popup shrinks. */
    ghost predicate BackwardRun()
      reads this
    {
      anim.running && anim.direction == Backward && ReverseStartTimer !in pending
    }

    /** The labels and the animation's range are those set up for m. */
    ghost predicate Shows(m: Message)
      reads this
    {
      view == Setup(m, env) && anim.startValue == Some(0)
      && anim.endValue == Some(ComputeWidth(m, env))
    }

    /** The object invariant: the widget is in one phase of the cycle;
        messages leave the queue in arrival order; a message's forward run
        starts only after every earlier message has been popped; and the
        labels show the last message whose run started. */
    ghost predicate Valid()
      reads this
    {
      && (Idle() || ForwardRun() || Holding() || BackwardRun())
      && arrived == retired + queue
      && shown == retired + (if ForwardRun() then [queue[0]] else [])
      && (shown != [] ==> Shows(shown[|shown| - 1]))
    }

    /** Widget::Widget with the gui/height setting already read as height;
        the init timer, styling and fonts are not modelled. */
    constructor (env: Environment, height: int)
      ensures Valid() && Idle()
      ensures this.env == env
      ensures position == PositionOf(Setting(env.settings, "gui/position"))
      ensures queue == [] && pending == multiset{}
      ensures anim == Animation(Forward, OutBounce, false, 0, None, None)
      ensures geometry == Rect(0, 0, DEFAULT_WIDTH, height) && !visible
      ensures arrived == [] && shown == [] && retired == []
    {
      this.env := env;
      position := PositionOf(Setting(env.settings, "gui/position"));
      queue := [];
      view := View(NullPixmap, "", "");
      anim := Animation(Forward, OutBounce, false, 0, None, None);
      pending := multiset{};
      geometry := Rect(0, 0, DEFAULT_WIDTH, height);
      visible := false;
      arrived := [];
      shown := [];
      retired := [];
    }

    /** onDataReceived: the message is pushed whether or not the read threw,
        and processMessageQueue is scheduled. */
    method OnDataReceived(o: ReadOutcome)
      requires Valid()
      modifies this
      ensures Valid()
      ensures queue == old(queue) + [Intake(o, env)]
      ensures arrived == old(arrived) + [Intake(o, env)]
      ensures pending == old(pending) + multiset{ProcessQueueTimer}
      ensures view == old(view) && anim == old(anim) && shown == old(shown)
      ensures retired == old(retired) && geometry == old(geometry) && visible == old(visible)
    {
      var m := BuildMessage(o, env);
      ghost var wasForward := ForwardRun();
      ghost var head := if queue == [] then m else queue[0];
      queue := queue + [m];
      arrived := arrived + [m];
      pending := pending + multiset{ProcessQueueTimer};
      assert pending[ReverseStartTimer] == old(pending)[ReverseStartTimer];
      assert queue[0] == head;
      assert ForwardRun() == wasForward;
    }

    /** processMessageQueue: with a message waiting and the guard open, set
        up the labels for the head and run forward from 0 to its width. The
        queue is not touched. */
    method ProcessMessageQueue()
      modifies this`view, this`anim, this`shown
      ensures old(queue == [] || StartBlocked(anim)) ==> unchanged(this)
      ensures old(queue != [] && !StartBlocked(anim)) ==>
                && Shows(queue[0])
                && anim.direction == Forward && anim.easing == OutBounce
                && anim.running && anim.currentTime == 0
                && shown == old(shown) + [queue[0]]
    {
      if queue == [] {
        return;
      }
      if StartBlocked(anim) {
        return;
      }
      var m := queue[0];
      view := Setup(m, env);
      anim := anim.(direction := Forward);
      var width := ComputeWidth(m, env);
      anim := anim.(easing := OutBounce, startValue := Some(0), endValue := Some(width));
      anim := Start(anim);
      shown := shown + [m];
    }

    /** reverseTrigger: after a backward run, schedule processMessageQueue;
        after a forward run, schedule reverseStart and pop the head. */
    method ReverseTrigger()
      requires anim.direction == Forward ==> queue != []
      modifies this`pending, this`queue, this`retired
      ensures anim.direction == Backward ==>
                pending == old(pending) + multiset{ProcessQueueTimer}
                && queue == old(queue) && retired == old(retired)
      ensures anim.direction == Forward ==>
                pending == old(pending) + multiset{ReverseStartTimer}
                && queue == old(queue)[1..] && retired == old(retired) + [old(queue)[0]]
    {
      if anim.direction == Backward {
        pending := pending + multiset{ProcessQueueTimer};
        return;
      }
      pending := pending + multiset{ReverseStartTimer};
      retired := retired + [queue[0]];
      queue := queue[1..];
    }

    /** reverseStart: turn the animation round, with the InCubic curve, and
        start it. */
    method ReverseStart()
      modifies this`anim
      ensures anim == Start(old(anim).(direction := Backward, easing := InCubic))
    {
      anim := anim.(direction := Backward, easing := InCubic);
      anim := Start(anim);
    }

    /** The animation's finished signal: the run stops at the end it ran to,
        and reverseTrigger runs. */
    method AnimationFinished()
      requires Valid() && anim.running
      modifies this
      ensures Valid()
      ensures anim == Finish(old(anim))
      ensures old(anim.direction) == Forward ==>
                && Holding()
                && queue == old(queue)[1..] && retired == old(retired) + [old(queue)[0]]
                && pending == old(pending) + multiset{ReverseStartTimer}
      ensures old(anim.direction) == Backward ==>
                && Idle()
                && queue == old(queue) && retired == old(retired)
                && pending == old(pending) + multiset{ProcessQueueTimer}
      ensures view == old(view) && shown == old(shown) && arrived == old(arrived)
      ensures geometry == old(geometry) && visible == old(visible)
    {
      ghost var forward := anim.direction == Forward;
      anim := Finish(anim);
      ReverseTrigger();
      if forward {
        assert Holding() && !ForwardRun();
        assert shown == retired;
      } else {
        assert Idle() && !ForwardRun();
      }
    }

    /** The timer scheduled at line 119 or 184 fires: processMessageQueue
        starts a cycle exactly when the widget is idle with a message waiting,
        and otherwise changes nothing. */
    method FireProcessQueue()
      requires Valid() && ProcessQueueTimer in pending
      modifies this
      ensures Valid()
      ensures pending == old(pending) - multiset{ProcessQueueTimer}
      ensures queue == old(queue) && arrived == old(arrived) && retired == old(retired)
      ensures geometry == old(geometry) && visible == old(visible)
      ensures old(Idle() && queue != []) ==> ForwardRun() && shown == old(shown) + [queue[0]]
      ensures old(Idle() && queue != []) ==>
                Shows(queue[0]) && anim.easing == OutBounce && anim.currentTime == 0
      ensures !old(Idle() && queue != []) ==>
                anim == old(anim) && view == old(view) && shown == old(shown)
    {
      pending := pending - multiset{ProcessQueueTimer};
      assert pending[ReverseStartTimer] == old(pending)[ReverseStartTimer];
      assert Valid() && Idle() == old(Idle());
      GuardOpenExactlyWhenIdle(this);
      ghost var starts := Idle() && queue != [];
      ghost var before := shown;
      ProcessMessageQueue();
      if starts {
        assert before == retired;
        assert ForwardRun();
        assert shown == retired + [queue[0]];
      }
    }

    /** The timer scheduled at line 187 fires: reverseStart can only fire
        while the popup holds, and it starts the backward run. */
    method FireReverseStart()
      requires Valid() && ReverseStartTimer in pending
      modifies this
      ensures Valid()
      ensures pending == old(pending) - multiset{ReverseStartTimer}
      ensures queue == old(queue) && arrived == old(arrived) && retired == old(retired)
      ensures geometry == old(geometry) && visible == old(visible)
      ensures view == old(view) && shown == old(shown)
      ensures old(Holding()) && BackwardRun()
      ensures anim == Start(old(anim).(direction := Backward, easing := InCubic))
    {
      pending := pending - multiset{ReverseStartTimer};
      assert old(Holding()) && pending[ReverseStartTimer] == 0 && !anim.running;
      ReverseStart();
    }

    /** A scheduled timer fires: its slot runs. */
    method Fire(cb: Callback)
      requires Valid() && cb in pending
      modifies this
      ensures Valid()
      ensures pending == old(pending) - multiset{cb}
      ensures queue == old(queue) && arrived == old(arrived) && retired == old(retired)
      ensures geometry == old(geometry) && visible == old(visible)
      ensures cb == ProcessQueueTimer && old(Idle() && queue != []) ==>
                ForwardRun() && shown == old(shown) + [queue[0]]
      ensures cb == ProcessQueueTimer && !old(Idle() && queue != []) ==>
                anim == old(anim) && view == old(view) && shown == old(shown)
      ensures cb == ProcessQueueTimer && old(Idle() && queue != []) ==>
                Shows(queue[0]) && anim.easing == OutBounce && anim.currentTime == 0
      ensures cb == ReverseStartTimer ==> old(Holding()) && BackwardRun()
      ensures cb == ReverseStartTimer ==>
                anim == Start(old(anim).(direction := Backward, easing := InCubic))
    {
      match cb
      case ProcessQueueTimer => FireProcessQueue();
      case ReverseStartTimer => FireReverseStart();
    }

    /** The animation's valueChanged signal with value v: the connected slot,
        if any, shows the widget and places it. */
    method OnValueChanged(v: int, screen: Screen)
      requires Valid()
      modifies this`geometry, this`visible
      ensures Valid()
      ensures position.None? ==> geometry == old(geometry) && visible == old(visible)
      ensures position.Some? ==>
                visible && geometry == FrameGeometry(position.value, old(geometry), v, screen)
    {
      if position.Some? {
        visible := true;
        geometry := FrameGeometry(position.value, geometry, v, screen);
      }
    }
  }

  /** The guard of processMessageQueue lets a cycle start exactly when the
      widget is idle: it blocks during both runs and, through the END_GUARD
      test, while the popup holds after a forward run. */
  lemma GuardOpenExactlyWhenIdle(w: Widget)
    requires w.Valid()
    ensures !StartBlocked(w.anim) <==> w.Idle()
  {
  }

  /** The pop of reverseTrigger is safe: a forward run only happens with a
      message at the head. */
  lemma ForwardRunHasHead(w: Widget)
    requires w.Valid() && w.anim.running && w.anim.direction == Forward
    ensures w.queue != []
  {
  }

  /** Messages are shown and retired in arrival order: the retired messages
      are a prefix of the shown ones, which are a prefix of the arrived ones,
      and at most one message is on show beyond those retired. */
  lemma ShownInArrivalOrder(w: Widget)
    requires w.Valid()
    ensures w.retired <= w.shown <= w.arrived
    ensures |w.shown| <= |w.retired| + 1
  {
    if w.ForwardRun() {
      assert w.arrived == w.retired + [w.queue[0]] + w.queue[1..];
    }
  }

  /** A datagram reaching a fresh widget: once processMessageQueue fires,
      the popup runs forward to the width computeWidth gives for the pushed
      message. */
  method FirstRunEndValue(env: Environment, height: int, o: ReadOutcome) returns (end: Option<int>)
    ensures end == Some(ComputeWidth(Intake(o, env), env))
  {
    var w := new Widget(env, height);
    w.OnDataReceived(o);
    w.Fire(ProcessQueueTimer);
    end := w.anim.endValue;
  }

  /** Two datagrams arriving before any timer fires: the first message runs
      forward, is popped, holds and runs back before the second one's forward
      run starts. */
  method TwoMessagesBackToBack(env: Environment, height: int, a: ReadOutcome, b: ReadOutcome)
  {
    var w := new Widget(env, height);
    w.OnDataReceived(a);
    w.OnDataReceived(b);
    assert w.queue == [Intake(a, env), Intake(b, env)];
    w.Fire(ProcessQueueTimer);
    assert w.ForwardRun() && w.shown == [Intake(a, env)];
    w.Fire(ProcessQueueTimer);
    assert w.shown == [Intake(a, env)];
    w.AnimationFinished();
    assert w.Holding() && w.queue == [Intake(b, env)] && w.retired == [Intake(a, env)];
    w.Fire(ReverseStartTimer);
    assert w.BackwardRun();
    w.AnimationFinished();
    assert w.Idle() && w.queue == [Intake(b, env)];
    w.Fire(ProcessQueueTimer);
    assert w.shown == [Intake(a, env), Intake(b, env)] && w.queue == [Intake(b, env)];
    w.AnimationFinished();
    assert w.queue == [] && w.retired == [Intake(a, env), Intake(b, env)];
  }
}
