/** Pane-drag sessions of one window. Starting and ending a session calls into pointer
    capture, and the code behind those calls may start and end sessions in turn. */
module PanelResize {
  import opened Options

  datatype Axis = Horizontal | Vertical

  /** The two style properties of the body that a drag changes. */
  datatype Style = Style(cursor: string, userSelect: string)

  function DragStyle(axis: Axis): Style {
    Style(if axis.Horizontal? then "col-resize" else "row-resize", "none")
  }

  /** `saved` is what the session will restore; `installed` and `removed` count how often
      its listeners were added and removed. */
  datatype Session = Session(
    saved: Style, axis: Axis, cleaning: bool, cleaned: bool, installed: nat, removed: nat)

  /** `active` is the entry of the window in the map of active sessions. */
  datatype Window = Window(active: Option<nat>, style: Style, sessions: seq<Session>)

  /** What foreign code does, and what it does again when it is called back: while the
      default action is prevented, while pointer capture is released by the session that
      is cleaned up, and while it is set for the new session. */
  datatype Action =
    | PointerDown(axis: Axis, onPrevent: seq<Action>, onRelease: seq<Action>, onCapture: seq<Action>)
    | Cancel(onRelease: seq<Action>)
    | End(session: nat, onRelease: seq<Action>)

  // ---------- the effect of every action ----------

  function Run(w: Window, script: seq<Action>): Window
    decreases script, 0
  {
    if script == [] then w else Run(Act(w, script[0]), script[1..])
  }

  function Act(w: Window, action: Action): Window
    decreases action, 2
  {
    match action
    case PointerDown(axis, _, _, _) => Down(w, action)
    case Cancel(onRelease) => CancelActive(w, onRelease)
    case End(session, onRelease) => Cleanup(w, session, onRelease)
  }

  /** Marks the session and removes its listeners. */
  function Marked(w: Window, id: nat): Window
    requires id < |w.sessions|
  {
    var session := w.sessions[id];
    w.(sessions := w.sessions[id := session.(cleaning := true, cleaned := true, removed := session.removed + 1)])
  }

  function Restored(w: Window, id: nat, saved: Style): Window {
    if w.active == Some(id) then w.(active := None, style := saved) else w
  }

  function Cleanup(w: Window, id: nat, onRelease: seq<Action>): Window
    decreases onRelease, 1
  {
    if id >= |w.sessions| || w.sessions[id].cleaned then w
    else Restored(Run(Marked(w, id), onRelease), id, w.sessions[id].saved)
  }

  function CancelActive(w: Window, onRelease: seq<Action>): Window
    decreases onRelease, 2
  {
    if w.active.Some? then Cleanup(w, w.active.value, onRelease) else w
  }

  /** The style that a new session will restore. */
  function Previous(w: Window): Style {
    if w.active.Some? && w.active.value < |w.sessions| then w.sessions[w.active.value].saved else w.style
  }

  predicate Taken(w: Window) {
    w.active.Some? && w.active.value < |w.sessions| && !w.sessions[w.active.value].cleaning
  }

  function Started(w: Window, saved: Style, axis: Axis): Window {
    Window(Some(|w.sessions|), DragStyle(axis), w.sessions + [Session(saved, axis, false, false, 1, 0)])
  }

  function Down(w: Window, action: Action): Window
    requires action.PointerDown?
    decreases action, 1
  {
    var after := CancelActive(Run(w, action.onPrevent), action.onRelease);
    if Taken(after) then after
    else Run(Started(after, Previous(w), action.axis), action.onCapture)
  }

  // ---------- the invariant ----------

  /** `original` is the style before the first drag; `open` are the sessions whose cleanup
      has begun but not ended. */
  ghost predicate Ordered(w: Window, original: Style, open: set<nat>) {
    && (w.active.None? ==> w.style == original)
    && (w.active.Some? ==>
          && w.active.value < |w.sessions|
          && w.style == DragStyle(w.sessions[w.active.value].axis)
          && (w.sessions[w.active.value].cleaned ==> w.active.value in open))
    && forall i :: 0 <= i < |w.sessions| ==>
         && w.sessions[i].saved == original
         && w.sessions[i].cleaning == w.sessions[i].cleaned
         && w.sessions[i].installed == 1
         && w.sessions[i].removed == (if w.sessions[i].cleaned then 1 else 0)
         && (!w.sessions[i].cleaned ==> w.active == Some(i))
  }

  /** Sessions are never forgotten or reopened. */
  ghost predicate Later(w: Window, w': Window) {
    && |w.sessions| <= |w'.sessions|
    && forall i :: 0 <= i < |w.sessions| && w.sessions[i].cleaned ==> w'.sessions[i].cleaned
  }

  lemma {:induction false} RunKeeps(w: Window, script: seq<Action>, original: Style, open: set<nat>)
    requires Ordered(w, original, open)
    ensures Ordered(Run(w, script), original, open) && Later(w, Run(w, script))
    decreases script, 0
  {
    if script != [] {
      ActKeeps(w, script[0], original, open);
      RunKeeps(Act(w, script[0]), script[1..], original, open);
    }
  }

  lemma {:induction false} ActKeeps(w: Window, action: Action, original: Style, open: set<nat>)
    requires Ordered(w, original, open)
    ensures Ordered(Act(w, action), original, open) && Later(w, Act(w, action))
    decreases action, 2
  {
    match action
    case PointerDown(_, _, _, _) => DownKeeps(w, action, original, open);
    case Cancel(onRelease) => CancelKeeps(w, onRelease, original, open);
    case End(session, onRelease) => CleanupKeeps(w, session, onRelease, original, open);
  }

  /** While foreign code runs inside the cleanup, the session counts as open; if it is
      still the active one afterwards the style is restored, otherwise a newer session
      has taken over and the style is left to that one. */
  lemma {:induction false} CleanupKeeps(
    w: Window, id: nat, onRelease: seq<Action>, original: Style, open: set<nat>)
    requires Ordered(w, original, open)
    ensures Ordered(Cleanup(w, id, onRelease), original, open) && Later(w, Cleanup(w, id, onRelease))
    ensures id < |w.sessions| ==> Cleanup(w, id, onRelease).sessions[id].cleaned
    decreases onRelease, 1
  {
    if id < |w.sessions| && !w.sessions[id].cleaned {
      var marked := Marked(w, id);
      RunKeeps(marked, onRelease, original, open + {id});
      assert marked.sessions[id].cleaned;
    }
  }

  lemma {:induction false} CancelKeeps(w: Window, onRelease: seq<Action>, original: Style, open: set<nat>)
    requires Ordered(w, original, open)
    ensures Ordered(CancelActive(w, onRelease), original, open) && Later(w, CancelActive(w, onRelease))
    ensures w.active.Some? ==> CancelActive(w, onRelease).sessions[w.active.value].cleaned
    decreases onRelease, 2
  {
    if w.active.Some? {
      CleanupKeeps(w, w.active.value, onRelease, original, open);
    }
  }

  lemma {:induction false} DownKeeps(w: Window, action: Action, original: Style, open: set<nat>)
    requires Ordered(w, original, open) && action.PointerDown?
    ensures Ordered(Down(w, action), original, open) && Later(w, Down(w, action))
    decreases action, 1
  {
    var before := Run(w, action.onPrevent);
    var after := CancelActive(before, action.onRelease);
    RunKeeps(w, action.onPrevent, original, open);
    CancelKeeps(before, action.onRelease, original, open);
    if !Taken(after) {
      var started := Started(after, Previous(w), action.axis);
      StartKeeps(after, Previous(w), action.axis, original, open);
      RunKeeps(started, action.onCapture, original, open);
    }
    hide Ordered, Run, CancelActive, Started, Previous, Taken;
  }

  /** A session starts only when the registered one, if any, is already being cleaned up. */
  lemma StartKeeps(w: Window, saved: Style, axis: Axis, original: Style, open: set<nat>)
    requires Ordered(w, original, open) && !Taken(w) && saved == original
    ensures Ordered(Started(w, saved, axis), original, open) && Later(w, Started(w, saved, axis))
  {
    var started := Started(w, saved, axis);
    assert forall i :: 0 <= i < |w.sessions| ==> started.sessions[i] == w.sessions[i];
  }

  // ---------- what a user sees ----------

  function Fresh(original: Style): Window {
    Window(None, original, [])
  }

  /** A session whose listeners are installed. */
  predicate Live(w: Window, i: nat) {
    i < |w.sessions| && w.sessions[i].installed > w.sessions[i].removed
  }

  /** However the actions are nested: every session would restore the style from before
      the first drag; listeners are installed once and removed at most once; at most one
      session has them; that session is the active one; and without it the body has its
      original style again. */
  lemma AnyNesting(original: Style, script: seq<Action>, i: nat, j: nat)
    ensures var w := Run(Fresh(original), script);
      && (i < |w.sessions| ==>
            w.sessions[i].saved == original && w.sessions[i].installed == 1 && w.sessions[i].removed <= 1)
      && (Live(w, i) && Live(w, j) ==> i == j)
      && (w.active == Some(i) <==> Live(w, i))
      && (Live(w, i) ==> w.style == DragStyle(w.sessions[i].axis))
      && (w.active.None? ==> w.style == original)
  {
    RunKeeps(Fresh(original), script, original, {});
  }

  /** A cancel always ends the session that was active when it was called, and without
      interference from foreign code it ends dragging altogether. */
  lemma CancelEnds(original: Style, script: seq<Action>, onRelease: seq<Action>)
    ensures var w := Run(Fresh(original), script);
      var w' := CancelActive(w, onRelease);
      && (w.active.Some? ==> w.active.value < |w'.sessions| && !Live(w', w.active.value))
      && (onRelease == [] ==> w'.active == None && w'.style == original && forall i :: !Live(w', i))
  {
    var w := Run(Fresh(original), script);
    RunKeeps(Fresh(original), script, original, {});
    CancelKeeps(w, onRelease, original, {});
  }

  /** A pointer press always leads to a new session: its own, or one that foreign code
      started meanwhile. Unless foreign code runs while pointer capture is set, a new
      session is live afterwards; without any foreign code it is the press's own. */
  lemma PressStarts(original: Style, script: seq<Action>, action: Action)
    requires action.PointerDown?
    ensures var w := Run(Fresh(original), script);
      var w' := Down(w, action);
      && |w'.sessions| > |w.sessions|
      && (action.onCapture == [] ==>
            w'.active.Some? && Live(w', w'.active.value) && w'.active.value >= |w.sessions|)
      && (action.onPrevent == [] && action.onRelease == [] && action.onCapture == [] ==>
            w'.active == Some(|w.sessions|) && w'.style == DragStyle(action.axis))
  {
    var w := Run(Fresh(original), script);
    RunKeeps(Fresh(original), script, original, {});
    var before := Run(w, action.onPrevent);
    var after := CancelActive(before, action.onRelease);
    RunKeeps(w, action.onPrevent, original, {});
    CancelKeeps(before, action.onRelease, original, {});
    if !Taken(after) {
      StartKeeps(after, Previous(w), action.axis, original, {});
      RunKeeps(Started(after, Previous(w), action.axis), action.onCapture, original, {});
    }
  }

  // ---------- the window as an object ----------

  class ResizeWindow {
    var active: Option<nat>
    var style: Style
    var sessions: seq<Session>

    function State(): Window
      reads this
    {
      Window(active, style, sessions)
    }

    constructor (original: Style)
      ensures State() == Fresh(original)
    {
      active, style, sessions := None, original, [];
    }

    /** Foreign code calls back in. */
    method RunScript(script: seq<Action>)
      modifies this
      ensures State() == Run(old(State()), script)
      decreases script, 0
    {
      if script != [] {
        match script[0] {
          case PointerDown(_, _, _, _) => OnPointerDown(script[0]);
          case Cancel(onRelease) => CancelActivePanelResize(onRelease);
          case End(session, onRelease) => CleanupSession(session, onRelease);
        }
        RunScript(script[1..]);
      }
    }

    /** The cleanup closure of a session: idempotent, and careful to restore the style only
        if the session is still the registered one after pointer capture was released. */
    method CleanupSession(id: nat, onRelease: seq<Action>)
      modifies this
      ensures State() == Cleanup(old(State()), id, onRelease)
      decreases onRelease, 1
    {
      if id >= |sessions| || sessions[id].cleaned {
        return;
      }
      var saved := sessions[id].saved;
      sessions := sessions[id := sessions[id].(cleaned := true)];
      sessions := sessions[id := sessions[id].(cleaning := true)];
      sessions := sessions[id := sessions[id].(removed := sessions[id].removed + 1)];
      assert sessions == Marked(old(State()), id).sessions;
      RunScript(onRelease);
      if active == Some(id) {
        active := None;
        style := saved;
      }
    }

    method CancelActivePanelResize(onRelease: seq<Action>)
      modifies this
      ensures State() == CancelActive(old(State()), onRelease)
      decreases onRelease, 2
    {
      if active.Some? {
        CleanupSession(active.value, onRelease);
      }
    }

    /** The pointer-down handler of one pane edge. */
    method OnPointerDown(action: Action)
      requires action.PointerDown?
      modifies this
      ensures State() == Down(old(State()), action)
      decreases action, 1
    {
      var previous := style;
      if active.Some? && active.value < |sessions| {
        previous := sessions[active.value].saved;
      }
      RunScript(action.onPrevent);
      CancelActivePanelResize(action.onRelease);
      if active.Some? && active.value < |sessions| && !sessions[active.value].cleaning {
        return;
      }
      var id := |sessions|;
      sessions := sessions + [Session(previous, action.axis, false, false, 1, 0)];
      active := Some(id);
      style := Style(if action.axis.Horizontal? then "col-resize" else "row-resize", "none");
      RunScript(action.onCapture);
    }
  }
}
