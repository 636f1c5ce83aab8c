/** The shell screen: attaching to a connection through the service, the coalescer that
    batches terminal redraws, the gating of redraws on the screen's state, command
    submission, and the "scrolled to the bottom" flag. */
module Shell {
  import opened JavaLang
  import opened Devices
  import opened Service

  // ---------------------------------------------------------------------------
  // The redraw coalescer

  /** The background work behind `updateQueued`: none, a thread sleeping before it posts
      the redraw to the UI thread, or the posted redraw running (it has cleared
      `updateRequired` and redrawn but not yet cleared `updateQueued`). There is one slot,
      so at most one redraw is ever pending. */
  datatype Job = NoJob | Sleeping | Redrawing

  /** The two flags `updateRequired` and `updateQueued` and the pending job. */
  datatype Coalescer = Coalescer(required: bool, queued: bool, job: Job)

  /** `updateQueued` is set exactly while a job is pending. */
  predicate Coherent(c: Coalescer) {
    c.queued <==> c.job != NoJob
  }

  /** `setGuiDirty`. */
  function MarkDirty(c: Coalescer): (r: Coalescer)
    ensures r.required && r.queued == c.queued && r.job == c.job
  {
    c.(required := true)
  }

  /** `doAsyncGuiUpdate`: nothing happens unless an update is required; otherwise the
      compare-and-set of `updateQueued` from false to true starts a job only when none
      is queued. */
  function Request(c: Coalescer): (r: Coalescer)
    ensures !c.required ==> r == c
    ensures c.queued ==> r == c
    ensures c.required && !c.queued ==> r == Coalescer(true, true, Sleeping)
    ensures Coherent(c) ==> Coherent(r)
  {
    if !c.required then c
    else if c.queued then c
    else c.(queued := true, job := Sleeping)
  }

  /** The first half of the redraw posted to the UI thread: `updateRequired` is cleared
      before the terminal is redrawn. */
  function BeginRedraw(c: Coalescer): (r: Coalescer)
    requires c.job == Sleeping
    ensures !r.required && r.queued == c.queued && r.job == Redrawing
  {
    c.(required := false, job := Redrawing)
  }

  /** The second half: `updateQueued` is cleared, and if the console changed while the
      redraw ran the update is requested again, so the change is never lost: afterwards
      either no update is required or a new job is pending. */
  function EndRedraw(c: Coalescer): (r: Coalescer)
    requires c.job == Redrawing
    ensures !r.required || (r.queued && r.job == Sleeping)
    ensures r.required == c.required
    ensures Coherent(r)
  {
    var d := c.(queued := false, job := NoJob);
    if d.required then Request(d) else d
  }

  /** What can happen to the coalescer: a dirty mark, an update request, the sleeping
      thread waking and running the first half of the redraw, the redraw finishing. */
  datatype Event = Dirty | Update | Wake | Finish

  /** One event; a `Wake` or `Finish` with no matching job cannot happen and changes nothing. */
  function Step(c: Coalescer, e: Event): (r: Coalescer) {
    match e
    case Dirty => MarkDirty(c)
    case Update => Request(c)
    case Wake => if c.job == Sleeping then BeginRedraw(c) else c
    case Finish => if c.job == Redrawing then EndRedraw(c) else c
  }

  /** The state after a sequence of events, oldest first. */
  function Run(c: Coalescer, events: seq<Event>): (r: Coalescer)
    decreases |events|
  {
    if events == [] then c else Run(Step(c, events[0]), events[1..])
  }

  /** The coalescer as the screen creates it. */
  const Idle := Coalescer(false, false, NoJob)

  /** Whatever the interleaving, `updateQueued` is set exactly while one job is pending:
      no second job is ever started and a finished job never leaves the flag set. */
  lemma {:induction false} RunKeepsCoherent(c: Coalescer, events: seq<Event>)
    requires Coherent(c)
    ensures Coherent(Run(c, events))
    decreases |events|
  {
    if events != [] {
      var d := Step(c, events[0]);
      assert Coherent(d);
      RunKeepsCoherent(d, events[1..]);
    }
  }

  /** Running two sequences of events one after the other. */
  lemma {:induction false} RunAppend(c: Coalescer, xs: seq<Event>, ys: seq<Event>)
    ensures Run(c, xs + ys) == Run(Run(c, xs), ys)
    decreases |xs|
  {
    if xs == [] {
      assert xs + ys == ys;
    } else {
      assert (xs + ys)[0] == xs[0];
      assert (xs + ys)[1..] == xs[1..] + ys;
      RunAppend(Step(c, xs[0]), xs[1..], ys);
    }
  }

  /** The events that finish the pending work when no new dirty mark arrives, including the
      re-requested redraw when the console changed during the running one. */
  function Drain(c: Coalescer): (events: seq<Event>) {
    match c.job
    case NoJob => []
    case Sleeping => [Wake, Finish]
    case Redrawing => if c.required then [Finish, Wake, Finish] else [Finish]
  }

  /** A pending update always completes: once the pending work drains, `updateQueued` is
      clear, and if any work was pending no update is required any more. */
  lemma DrainSettles(c: Coalescer)
    requires Coherent(c)
    ensures var d := Run(c, Drain(c));
      !d.queued && d.job == NoJob && (c.job != NoJob ==> !d.required)
  {
    match c.job
    case NoJob =>
    case Sleeping =>
      var d1 := Step(c, Wake);
      assert d1 == Coalescer(false, true, Redrawing);
      assert Run(c, Drain(c)) == Run(d1, [Finish]) == Step(d1, Finish);
    case Redrawing =>
      if c.required {
        var d1 := Step(c, Finish);
        assert d1 == Coalescer(true, true, Sleeping);
        var d2 := Step(d1, Wake);
        assert d2 == Coalescer(false, true, Redrawing);
        assert Run(c, Drain(c)) == Run(d1, [Wake, Finish]) == Run(d2, [Finish]) == Step(d2, Finish);
      } else {
        assert Run(c, Drain(c)) == Step(c, Finish);
      }
  }

  /** Whatever happened since the screen was created, letting the pending work drain
      leaves no job queued, and no update required if a job was pending. */
  lemma EveryHistorySettles(events: seq<Event>)
    ensures var c := Run(Idle, events);
      var d := Run(Idle, events + Drain(c));
      !d.queued && d.job == NoJob && (c.job != NoJob ==> !d.required)
  {
    var c := Run(Idle, events);
    RunKeepsCoherent(Idle, events);
    RunAppend(Idle, events, Drain(c));
    DrainSettles(c);
  }

  /** A dirty mark that arrives while the redraw is running is not lost: finishing the
      redraw queues another one. */
  lemma MarkDuringRedraw()
    ensures Run(Idle, [Dirty, Update, Wake, Dirty, Finish]) == Coalescer(true, true, Sleeping)
  {
    assert Run(Idle, [Dirty, Update, Wake, Dirty, Finish]) == Run(Coalescer(true, true, Sleeping), [Wake, Dirty, Finish]);
  }

  // ---------------------------------------------------------------------------
  // Scrolling

  /** `view.getBottom() - (shellScroller.getHeight() + shellScroller.getScrollY())`, in
      Java `int` arithmetic: both operations wrap around. The result is the mathematical
      difference whenever nothing overflows and is congruent to it in any case. */
  function ScrollGap(bottom: Int32, height: Int32, scrollY: Int32): (r: Int32)
    ensures (r - (bottom - (height + scrollY))) % Modulus == 0
    ensures MinInt <= height + scrollY <= MaxInt && MinInt <= bottom - (height + scrollY) <= MaxInt ==>
      r == bottom - (height + scrollY)
  {
    var inner := Wrap(height + scrollY);
    var r := Wrap(bottom - inner);
    assert (bottom - inner) - (bottom - (height + scrollY)) == (height + scrollY) - inner;
    assert (r - (bottom - (height + scrollY))) == (r - (bottom - inner)) + ((height + scrollY) - inner);
    r
  }

  /** The scroll position counts as "at the bottom" when the gap is not positive; without
      overflow, that is exactly "the content's bottom is within the viewport". */
  function AtBottom(bottom: Int32, height: Int32, scrollY: Int32): (r: bool)
    ensures MinInt <= height + scrollY <= MaxInt && MinInt <= bottom - (height + scrollY) <= MaxInt ==>
      (r <==> bottom <= height + scrollY)
  {
    ScrollGap(bottom, height, scrollY) <= 0
  }

  // ---------------------------------------------------------------------------
  // Constants of the Android framework

  /** `EditorInfo.IME_ACTION_DONE`. */
  const ImeActionDone: int := 6
  /** `KeyEvent.KEYCODE_ENTER`. */
  const KeycodeEnter: int := 66
  /** `MotionEvent.ACTION_DOWN`, `ACTION_UP`, `ACTION_MOVE`, `ACTION_CANCEL`. */
  const ActionDown: int := 0
  const ActionUp: int := 1
  const ActionMove: int := 2
  const ActionCancel: int := 3

  /** The extras the shell screen is launched with: `"IP"` and `"Port"`, each of which may
      be missing. */
  datatype ShellIntent = ShellIntent(ip: Option<string>, port: Option<Int32>)

  /** `getIntExtra("Port", -1)`. */
  function PortExtra(intent: ShellIntent): (p: Int32)
    ensures intent.port.None? ==> p == -1
    ensures intent.port.Some? ==> p == intent.port.value
  {
    if intent.port.Some? then intent.port.value else -1
  }

  /** The host text a null `hostName` turns into when concatenated with `":"`. */
  function HostText(hostName: Option<string>): (h: string)
    ensures hostName.Some? ==> h == hostName.value
    ensures hostName.None? ==> h == "null"
  {
    if hostName.Some? then hostName.value else "null"
  }

  // ---------------------------------------------------------------------------
  // The screen

  /** A listener map after `x` leaves the listeners of `conn`, or unchanged when there is
      no connection to leave. */
  function Detached(l: map<DeviceConnection, set<object>>, conn: DeviceConnection?, x: object)
    : (r: map<DeviceConnection, set<object>>)
    ensures conn == null ==> r == l
    ensures conn != null ==> conn in r && x !in r[conn] && r[conn] == ListenersIn(l, conn) - {x}
    ensures forall c | c in l && c != conn :: c in r && r[c] == l[c]
    ensures forall c | c in r && c != conn :: c in l
  {
    if conn == null then l else l[conn := ListenersIn(l, conn) - {x}]
  }

  class AdbShell {
    var hostName: Option<string>
    var port: Int32
    /** The connection shown, or null before the first connect-or-lookup. */
    var connection: DeviceConnection?
    /** The service's binder while bound, or null. */
    var binder: ShellService?
    /** Whether a bind has been requested (the service delivers the binder later). */
    var bindRequested: bool
    /** How many times the service was started. */
    var serviceStarts: nat
    /** Whether `finish()` was called. */
    var finished: bool

    var updateGui: bool
    var updateRequired: bool
    var updateQueued: bool
    var job: Job
    var autoScrollEnabled: bool
    var userScrolling: bool
    var scrollViewAtBottom: bool

    /** The latest console buffer received, and the one the terminal view shows. */
    var lastConsole: object?
    var shown: object?

    var commandBuffer: string
    /** The text in the command box. */
    var commandBox: string
    /** Commands added to the command history, oldest first. */
    var history: seq<string>

    /** The coalescer's part of the state. */
    function Coalescing(): (c: Coalescer)
      reads this`updateRequired, this`updateQueued, this`job
    {
      Coalescer(updateRequired, updateQueued, job)
    }

    /** The screen's invariant: the coalescer is coherent; a binder is only held once a
        connection is attached; the command buffer is empty between commands; and when no
        update is required the terminal shows the latest console buffer. */
    ghost predicate Valid()
      reads this
    {
      && Coherent(Coalescing())
      && (binder != null ==> connection != null)
      && commandBuffer == ""
      && (!updateRequired ==> shown == lastConsole)
      && (lastConsole == null ==> shown == null)
    }

    /** The screen as `onCreate` leaves it before it handles its launch intent. */
    constructor ()
      ensures Valid()
      ensures hostName == None && connection == null && binder == null
      ensures !bindRequested && serviceStarts == 0 && !finished
      ensures !updateGui && Coalescing() == Idle
      ensures autoScrollEnabled && !userScrolling && scrollViewAtBottom
      ensures lastConsole == null && shown == null
      ensures commandBuffer == "" && commandBox == "" && history == []
    {
      hostName := None;
      port := 0;
      connection := null;
      binder := null;
      bindRequested := false;
      serviceStarts := 0;
      finished := false;
      updateGui := false;
      updateRequired := false;
      updateQueued := false;
      job := NoJob;
      autoScrollEnabled := true;
      userScrolling := false;
      scrollViewAtBottom := true;
      lastConsole := null;
      shown := null;
      commandBuffer := "";
      commandBox := "";
      history := [];
    }

    // -------------------------------------------------------------------------
    // Attaching to a connection

    /** `startConnection`: the service creates a connection to the endpoint (with itself
        as first listener), the screen adds itself as a listener, and the handshake starts. */
    method StartConnection(host: string, port: Int32) returns (conn: DeviceConnection)
      requires binder != null
      modifies binder`listeners
      ensures fresh(conn)
      ensures conn.host == host && conn.port == port && conn.started && conn.queued == [] && conn.foreground && !conn.closed
      ensures binder.listeners == old(binder.listeners)[conn := {binder, this}]
    {
      var service: ShellService := binder;
      ghost var first: set<object> := {service};
      ghost var both: set<object> := {service, this};
      conn := service.CreateConnection(host, port);
      assert ListenersIn(service.listeners, conn) == first;
      service.AddListener(conn, this);
      assert first + {this} == both;
      conn.StartConnect();
    }

    /** `connectOrLookupConnection`: an established connection to the endpoint is reused
        (the screen only adds itself as a listener); otherwise exactly one new connection
        is created, listened to and started. */
    method ConnectOrLookup(host: string, port: Int32) returns (conn: DeviceConnection)
      requires binder != null
      modifies binder`listeners
      ensures var found := old(binder.FindConnection(host, port));
        found != null ==>
          conn == found && binder.listeners == old(binder.listeners)[conn := ListenersIn(old(binder.listeners), conn) + {this}]
      ensures var found := old(binder.FindConnection(host, port));
        found == null ==>
          && fresh(conn) && conn.host == host && conn.port == port && conn.started && conn.queued == [] && conn.foreground && !conn.closed
          && binder.listeners == old(binder.listeners)[conn := {binder, this}]
    {
      var found := binder.FindConnection(host, port);
      if found == null {
        conn := StartConnection(host, port);
      } else {
        conn := found;
        binder.AddListener(conn, this);
      }
    }

    /** The step shared by `onNewIntent` and `onServiceConnected` while bound: the screen
        leaves the listeners of its previous connection, then connects to or looks up the
        endpoint and listens to the connection it gets. */
    method Reattach(host: string, port: Int32)
      requires binder != null
      modifies this`connection, binder`listeners
      ensures var found := old(binder.FindConnection(host, port));
        var left := Detached(old(binder.listeners), old(connection), this);
        && (found != null ==> connection == found && binder.listeners == left[found := ListenersIn(left, found) + {this}])
        && (found == null ==>
              && fresh(connection) && connection.host == host && connection.port == port
              && connection.started && connection.queued == [] && connection.foreground && !connection.closed
              && binder.listeners == left[connection := {binder, this}])
      ensures connection != null && this in ListenersIn(binder.listeners, connection)
      ensures old(connection) != null && connection != old(connection) ==> this !in ListenersIn(binder.listeners, old(connection))
    {
      if connection != null {
        binder.RemoveListener(connection, this);
      }
      connection := ConnectOrLookup(host, port);
    }

    /** `onNewIntent`: an intent without a host or with port -1 (also what a missing port
        reads as) attaches nothing and finishes the screen when it has no connection or no
        binder. Otherwise the service is started, and the screen either asks to bind
        (attaching happens when the binder arrives) or, already bound, leaves its previous
        connection's listeners and connects to or looks up the new endpoint. */
    method OnNewIntent(intent: ShellIntent)
      requires Valid()
      modifies this`hostName, this`port, this`finished, this`serviceStarts, this`bindRequested, this`connection, binder
      ensures Valid()
      ensures hostName == intent.ip && port == PortExtra(intent)
      ensures binder == old(binder)
      ensures intent.ip.None? || port == -1 ==>
        && connection == old(connection) && serviceStarts == old(serviceStarts)
        && bindRequested == old(bindRequested)
        && finished == (old(finished) || old(connection) == null || old(binder) == null)
        && (binder != null ==> binder.listeners == old(binder.listeners))
      ensures intent.ip.Some? && port != -1 ==>
        serviceStarts == old(serviceStarts) + 1 && finished == old(finished)
      ensures intent.ip.Some? && port != -1 && old(binder) == null ==>
        bindRequested && connection == old(connection)
      ensures intent.ip.Some? && port != -1 && old(binder) != null ==>
        var found := old(binder.FindConnection(intent.ip.value, PortExtra(intent)));
        var left := Detached(old(binder.listeners), old(connection), this);
        && bindRequested == old(bindRequested)
        && (found != null ==> connection == found && binder.listeners == left[found := ListenersIn(left, found) + {this}])
        && (found == null ==>
              && fresh(connection) && connection.host == intent.ip.value && connection.port == PortExtra(intent)
              && connection.started && connection.queued == [] && connection.foreground && !connection.closed
              && binder.listeners == left[connection := {binder, this}])
        && this in ListenersIn(binder.listeners, connection)
        && (old(connection) != null && connection != old(connection) ==> this !in ListenersIn(binder.listeners, old(connection)))
      ensures binder != null ==>
        unchanged(binder`conns, binder`foregroundId, binder`posted, binder`wakeLock, binder`wifiLock, binder`stopSelfCalls)
      ensures binder != null && old(binder.Valid()) ==> binder.Valid()
    {
      hostName := intent.ip;
      port := PortExtra(intent);
      if hostName.None? || port == -1 {
        if connection == null || binder == null {
          finished := true;
        }
        return;
      }
      serviceStarts := serviceStarts + 1;
      if binder == null {
        bindRequested := true;
      } else {
        Reattach(hostName.value, port);
      }
    }

    /** `onServiceConnected`: the binder is kept, the screen leaves its previous
        connection's listeners, and connects to or looks up its endpoint (a missing host
        reads as the text "null", as Java's string concatenation makes it). */
    method OnServiceConnected(service: ShellService)
      requires Valid()
      modifies this`binder, this`connection, service`listeners
      ensures Valid()
      ensures binder == service
      ensures var found := old(service.FindConnection(HostText(hostName), port));
        var left := Detached(old(service.listeners), old(connection), this);
        && (found != null ==> connection == found && service.listeners == left[found := ListenersIn(left, found) + {this}])
        && (found == null ==>
              && fresh(connection) && connection.host == HostText(hostName) && connection.port == port
              && connection.started && connection.queued == [] && connection.foreground && !connection.closed
              && service.listeners == left[connection := {service, this}])
        && this in ListenersIn(binder.listeners, connection)
        && (old(connection) != null && connection != old(connection) ==> this !in ListenersIn(binder.listeners, old(connection)))
    {
      binder := service;
      Reattach(HostText(hostName), port);
    }

    /** `onServiceDisconnected`: the binder is dropped; the connection stays. */
    method OnServiceDisconnected()
      requires Valid()
      modifies this`binder
      ensures Valid()
      ensures binder == null
    {
      binder := null;
    }

    // -------------------------------------------------------------------------
    // Redraws

    /** `updateTerminalView`: the view shows the latest console buffer, if any. */
    method UpdateTerminalView()
      modifies this`shown
      ensures shown == if lastConsole != null then lastConsole else old(shown)
    {
      if lastConsole != null {
        shown := lastConsole;
      }
    }

    /** `setGuiDirty`. */
    method SetGuiDirty()
      modifies this`updateRequired
      ensures Coalescing() == MarkDirty(old(Coalescing()))
    {
      updateRequired := true;
    }

    /** `doAsyncGuiUpdate`: no-op unless an update is required; starts the sleeping job
        only if none is queued. */
    method DoAsyncGuiUpdate()
      modifies this`updateQueued, this`job
      ensures Coalescing() == Request(old(Coalescing()))
    {
      if !updateRequired {
        return;
      }
      if !updateQueued {
        updateQueued := true;
        job := Sleeping;
      }
    }

    /** The posted redraw, first half: `updateRequired` is cleared, then the terminal is
        redrawn, so it shows the latest buffer. */
    method RunRedrawBegin()
      requires Valid() && job == Sleeping
      modifies this`updateRequired, this`job, this`shown
      ensures Valid()
      ensures Coalescing() == BeginRedraw(old(Coalescing()))
      ensures shown == lastConsole
    {
      updateRequired := false;
      job := Redrawing;
      UpdateTerminalView();
    }

    /** The posted redraw, second half: `updateQueued` is cleared and the update is
        requested again if the console changed meanwhile. */
    method RunRedrawEnd()
      requires Valid() && job == Redrawing
      modifies this`updateQueued, this`job
      ensures Valid()
      ensures Coalescing() == EndRedraw(old(Coalescing()))
    {
      updateQueued := false;
      job := NoJob;
      if updateRequired {
        DoAsyncGuiUpdate();
      }
    }

    /** `consoleUpdated`: the buffer is always recorded and marked dirty; an update is
        requested only while the screen updates its view, the user is not scrolling and
        the view is at the bottom. */
    method ConsoleUpdated(console: object)
      requires Valid()
      modifies this`lastConsole, this`updateRequired, this`updateQueued, this`job
      ensures Valid()
      ensures lastConsole == console && updateRequired
      ensures Coalescing() == (if updateGui && !userScrolling && scrollViewAtBottom
                               then Request(MarkDirty(old(Coalescing())))
                               else MarkDirty(old(Coalescing())))
    {
      lastConsole := console;
      SetGuiDirty();
      if updateGui && !userScrolling && scrollViewAtBottom {
        DoAsyncGuiUpdate();
      }
    }

    // -------------------------------------------------------------------------
    // Commands

    /** `onEditorAction`: with an empty command box or no connection nothing is sent and
        the result is false; for the Done action the text plus a newline is queued on the
        connection, added to the history, the box is cleared, the view is forced to the
        bottom and an update is requested; any other action is ignored. */
    method OnEditorAction(actionId: int) returns (handled: bool)
      requires Valid()
      modifies this`commandBuffer, this`commandBox, this`history, this`scrollViewAtBottom, this`updateQueued, this`job, connection
      ensures Valid()
      ensures handled <==> |old(commandBox)| > 0 && connection != null && actionId == ImeActionDone
      ensures handled ==>
        && connection.queued == old(connection.queued) + [old(commandBox) + "\n"]
        && history == old(history) + [old(commandBox)]
        && commandBox == "" && scrollViewAtBottom
        && Coalescing() == Request(old(Coalescing()))
      ensures !handled ==>
        && commandBox == old(commandBox) && history == old(history)
        && scrollViewAtBottom == old(scrollViewAtBottom)
        && Coalescing() == old(Coalescing())
        && (connection != null ==> connection.queued == old(connection.queued))
      ensures connection != null ==>
        && connection.foreground == old(connection.foreground)
        && connection.closed == old(connection.closed)
        && connection.started == old(connection.started)
    {
      if |commandBox| == 0 || connection == null {
        return false;
      }
      if actionId == ImeActionDone {
        var text := commandBox;
        commandBuffer := commandBuffer + text;
        history := history + [text];
        commandBuffer := commandBuffer + "\n";
        assert commandBuffer == text + "\n";
        connection.QueueCommand(commandBuffer);
        commandBuffer := "";
        commandBox := "";
        scrollViewAtBottom := true;
        DoAsyncGuiUpdate();
        return true;
      }
      return false;
    }

    /** `onKey`: Enter is handled exactly like the Done action; other keys are ignored. */
    method OnKey(keyCode: int) returns (handled: bool)
      requires Valid()
      modifies this`commandBuffer, this`commandBox, this`history, this`scrollViewAtBottom, this`updateQueued, this`job, connection
      ensures Valid()
      ensures handled <==> keyCode == KeycodeEnter && |old(commandBox)| > 0 && connection != null
      ensures handled ==>
        && connection.queued == old(connection.queued) + [old(commandBox) + "\n"]
        && history == old(history) + [old(commandBox)]
        && commandBox == "" && scrollViewAtBottom
        && Coalescing() == Request(old(Coalescing()))
      ensures !handled ==>
        && commandBox == old(commandBox) && history == old(history)
        && scrollViewAtBottom == old(scrollViewAtBottom)
        && Coalescing() == old(Coalescing())
        && (connection != null ==> connection.queued == old(connection.queued))
      ensures connection != null ==>
        && connection.foreground == old(connection.foreground)
        && connection.closed == old(connection.closed)
        && connection.started == old(connection.started)
    {
      if keyCode == KeycodeEnter {
        handled := OnEditorAction(ImeActionDone);
      } else {
        handled := false;
      }
    }

    // -------------------------------------------------------------------------
    // Scrolling and lifecycle

    /** The scroll listener: the flag becomes "at the bottom" exactly when the gap is not
        positive, and reaching the bottom requests an update. */
    method OnScrollChanged(bottom: Int32, height: Int32, scrollY: Int32)
      requires Valid()
      modifies this`scrollViewAtBottom, this`updateQueued, this`job
      ensures Valid()
      ensures scrollViewAtBottom == AtBottom(bottom, height, scrollY)
      ensures Coalescing() == if scrollViewAtBottom then Request(old(Coalescing())) else old(Coalescing())
    {
      var diff := ScrollGap(bottom, height, scrollY);
      if diff <= 0 {
        DoAsyncGuiUpdate();
        scrollViewAtBottom := true;
      } else {
        scrollViewAtBottom := false;
      }
    }

    /** The touch listener: a press or move marks the user as scrolling; a release or
        cancel ends it, requesting an update first if the view is at the bottom. Other
        actions are ignored. The event is never consumed. */
    method OnTouch(action: int) returns (consumed: bool)
      requires Valid()
      modifies this`userScrolling, this`updateQueued, this`job
      ensures Valid()
      ensures !consumed
      ensures action == ActionDown || action == ActionMove ==> userScrolling && Coalescing() == old(Coalescing())
      ensures action == ActionUp || action == ActionCancel ==>
        !userScrolling && Coalescing() == if scrollViewAtBottom then Request(old(Coalescing())) else old(Coalescing())
      ensures action !in {ActionDown, ActionMove, ActionUp, ActionCancel} ==>
        userScrolling == old(userScrolling) && Coalescing() == old(Coalescing())
    {
      if action == ActionMove || action == ActionDown {
        userScrolling := true;
      } else if action == ActionUp || action == ActionCancel {
        if scrollViewAtBottom {
          DoAsyncGuiUpdate();
        }
        userScrolling := false;
      }
      consumed := false;
    }

    /** `onResume`: the service hears that the connection is viewed again, the terminal
        is redrawn, and view updates resume. */
    method OnResume()
      requires Valid()
      modifies this`shown, this`updateGui, connection
      ensures Valid()
      ensures updateGui
      ensures shown == if lastConsole != null then lastConsole else old(shown)
      ensures binder != null ==> connection.foreground
      ensures binder == null && connection != null ==> connection.foreground == old(connection.foreground)
      ensures connection != null ==>
        && connection.closed == old(connection.closed)
        && connection.started == old(connection.started)
        && connection.queued == old(connection.queued)
    {
      if binder != null {
        binder.NotifyResumingActivity(connection);
      }
      UpdateTerminalView();
      updateGui := true;
    }

    /** `onPause`: the service hears that the connection is no longer viewed, and view
        updates stop. */
    method OnPause()
      requires Valid()
      modifies this`updateGui, connection
      ensures Valid()
      ensures !updateGui
      ensures binder != null ==> !connection.foreground
      ensures binder == null && connection != null ==> connection.foreground == old(connection.foreground)
      ensures connection != null ==>
        && connection.closed == old(connection.closed)
        && connection.started == old(connection.started)
        && connection.queued == old(connection.queued)
    {
      if binder != null {
        binder.NotifyPausingActivity(connection);
      }
      updateGui := false;
    }

    /** `onDestroy`, for the service: while bound, the service hears that the screen goes
        away (a closed connection's terminated notification is cancelled) and the screen
        leaves the connection's listeners. Nothing else of the service changes. */
    method OnDestroy()
      requires Valid()
      modifies binder
      ensures binder != null ==>
        && (old(binder.Valid()) ==> binder.Valid())
        && binder.posted == (if connection.closed then old(binder.posted) - {FailedId(ConnectionString(connection))}
                             else old(binder.posted))
        && binder.listeners == old(binder.listeners)[connection := ListenersIn(old(binder.listeners), connection) - {this}]
        && unchanged(binder`conns, binder`foregroundId, binder`wakeLock, binder`wifiLock, binder`stopSelfCalls)
    {
      if binder != null && connection != null {
        binder.NotifyDestroyingActivity(connection);
        binder.RemoveListener(connection, this);
      }
    }
  }
}
