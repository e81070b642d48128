/** The kill switch and the split-tunnel mode: two persisted settings, one firewall
    block, and firewall calls that may fail. Handlers run one at a time. */
module KillSwitch {

  datatype Frame =
    | KillSwitchUpdated(enabled: bool, armed: bool)
    | SplitTunnelUpdated(mode: string)
    | Warning

  /** `installed` is the actual firewall state. */
  datatype World = World(enabled: bool, mode: string, installed: bool, frames: seq<Frame>)

  /** What the firewall and the proxy do during one command: the outcome of setting
      the block up and of removing it, whether the block is there after a failed
      call, and whether inspecting it works. */
  datatype Env = Env(
    testMode: bool, connected: bool, ipsKnown: bool,
    setupOk: bool, setAnyway: bool, removeOk: bool, removedAnyway: bool, probeOk: bool,
    tunUp: bool, reapplyOk: bool, hijackOk: bool)

  datatype Command = SetKillSwitch(enabled: bool, force: bool) | SetSplitTunnel(mode: string)

  /** A failed setup may leave the block in either state. */
  function AfterSetup(env: Env): bool {
    env.setupOk || env.setAnyway
  }

  /** Removal reports success only when the block is verifiably gone. */
  function AfterRemove(installed: bool, env: Env): bool {
    installed && !env.removeOk && !env.removedAnyway
  }

  /** The persisted intent with the inspected state; a failed inspection counts as
      not armed. */
  function StateFrame(w: World, env: Env): Frame {
    KillSwitchUpdated(w.enabled, w.enabled && env.probeOk && w.installed)
  }

  function Sent(w: World, frames: seq<Frame>): World {
    w.(frames := w.frames + frames)
  }

  function SwitchOff(w: World, force: bool, env: Env): World {
    var after := w.(installed := AfterRemove(w.installed, env));
    if force then Sent(after.(enabled := false), [Warning, KillSwitchUpdated(false, false)])
    else if !env.removeOk then
      var failed := after.(enabled := true);
      Sent(failed, [StateFrame(failed, env), Warning])
    else Sent(after.(enabled := false), [KillSwitchUpdated(false, false)])
  }

  function SwitchOn(w: World, env: Env): World {
    if env.connected && !env.ipsKnown then
      var on := w.(enabled := true);
      Sent(on, [Warning, StateFrame(on, env)])
    else
      var on := w.(enabled := true, installed := AfterSetup(env));
      if env.setupOk then Sent(on, [KillSwitchUpdated(true, true)]) else Sent(on, [Warning, StateFrame(on, env)])
  }

  function SavedMode(mode: string): string {
    if mode == "off" || mode == "exclude" || mode == "include" then mode else "off"
  }

  function Handle(w: World, c: Command, env: Env): World {
    match c
    case SetKillSwitch(enabled, force) =>
      if env.testMode then Sent(w.(enabled := enabled), [KillSwitchUpdated(enabled, false)])
      else if enabled && w.mode == "include" then Sent(w, [Warning, StateFrame(w, env)])
      else if !enabled then SwitchOff(w, force, env)
      else SwitchOn(w, env)
    case SetSplitTunnel(mode) =>
      if mode == "include" && w.enabled then Sent(w, [Warning, SplitTunnelUpdated(w.mode)])
      else
        var saved := w.(mode := SavedMode(mode));
        if env.tunUp && (!env.reapplyOk || !env.hijackOk) then Sent(saved, [Warning])
        else Sent(saved, [SplitTunnelUpdated(saved.mode)])
  }

  /** The two handlers over the application configuration and the firewall. */
  class Guard {
    var enabled: bool
    var mode: string
    var installed: bool
    var frames: seq<Frame>

    function State(): World
      reads this
    {
      World(enabled, mode, installed, frames)
    }

    constructor ()
      ensures State() == World(false, "off", false, [])
    {
      enabled, mode, installed, frames := false, "off", false, [];
    }

    method KillSwitchState(env: Env) returns (f: Frame)
      ensures f == StateFrame(State(), env)
    {
      var armed := false;
      if enabled {
        armed := env.probeOk && installed;
      }
      return KillSwitchUpdated(enabled, armed);
    }

    method SetKillSwitch(on: bool, force: bool, env: Env)
      modifies this
      ensures State() == Handle(old(State()), Command.SetKillSwitch(on, force), env)
    {
      if env.testMode {
        enabled := on;
        frames := frames + [KillSwitchUpdated(on, false)];
        return;
      }
      if on && mode == "include" {
        var f := KillSwitchState(env);
        frames := frames + [Warning, f];
        return;
      }
      if !on {
        installed := AfterRemove(installed, env);
        if force {
          enabled := false;
          frames := frames + [Warning, KillSwitchUpdated(false, false)];
          return;
        }
        if !env.removeOk {
          enabled := true;
          var f := KillSwitchState(env);
          frames := frames + [f, Warning];
          return;
        }
        enabled := false;
        frames := frames + [KillSwitchUpdated(false, false)];
        return;
      }
      if env.connected && !env.ipsKnown {
        enabled := true;
        var f := KillSwitchState(env);
        frames := frames + [Warning, f];
        return;
      }
      installed := AfterSetup(env);
      enabled := true;
      if !env.setupOk {
        var f := KillSwitchState(env);
        frames := frames + [Warning, f];
        return;
      }
      frames := frames + [KillSwitchUpdated(true, true)];
    }

    method SetSplitTunnel(requested: string, env: Env)
      modifies this
      ensures State() == Handle(old(State()), Command.SetSplitTunnel(requested), env)
    {
      if requested == "include" && enabled {
        frames := frames + [Warning, SplitTunnelUpdated(mode)];
        return;
      }
      mode := SavedMode(requested);
      if env.tunUp {
        if !env.reapplyOk || !env.hijackOk {
          frames := frames + [Warning];
          return;
        }
      }
      frames := frames + [SplitTunnelUpdated(mode)];
    }
  }

  // ---- the answers in the fields of the state ----

  /** Switching on outside test mode: refused in include mode; recorded without arming
      while the addresses of the connected server are unknown; otherwise the block is set
      up, and the switch stays on even if that fails. */
  lemma SwitchOnAnswers(w: World, force: bool, env: Env)
    requires !env.testMode
    ensures var after := Handle(w, Command.SetKillSwitch(true, force), env);
            after ==
            if w.mode == "include" then
              World(w.enabled, w.mode, w.installed,
                    w.frames + [Warning, KillSwitchUpdated(w.enabled, w.enabled && env.probeOk && w.installed)])
            else if env.connected && !env.ipsKnown then
              World(true, w.mode, w.installed, w.frames + [Warning, KillSwitchUpdated(true, env.probeOk && w.installed)])
            else if env.setupOk then
              World(true, w.mode, true, w.frames + [KillSwitchUpdated(true, true)])
            else
              World(true, w.mode, env.setAnyway, w.frames + [Warning, KillSwitchUpdated(true, env.probeOk && env.setAnyway)])
  {
  }

  /** Switching off outside test mode: on success the block is gone and the switch off;
      when the block cannot be removed the switch is on; with force it is off in any case. */
  lemma SwitchOffAnswers(w: World, force: bool, env: Env)
    requires !env.testMode
    ensures var after := Handle(w, Command.SetKillSwitch(false, force), env);
            var left := w.installed && !env.removeOk && !env.removedAnyway;
            after ==
            if force then World(false, w.mode, left, w.frames + [Warning, KillSwitchUpdated(false, false)])
            else if env.removeOk then World(false, w.mode, false, w.frames + [KillSwitchUpdated(false, false)])
            else World(true, w.mode, left, w.frames + [KillSwitchUpdated(true, env.probeOk && left), Warning])
  {
  }

  /** In test mode the firewall is not touched. */
  lemma TestModeAnswers(w: World, on: bool, force: bool, env: Env)
    requires env.testMode
    ensures Handle(w, Command.SetKillSwitch(on, force), env) ==
            World(on, w.mode, w.installed, w.frames + [KillSwitchUpdated(on, false)])
  {
  }

  /** A split-tunnel mode: include is refused while the switch is on; the three modes are
      stored as requested and anything else as off; the mode is confirmed unless the live
      rules could not be renewed. */
  lemma SplitTunnelAnswers(w: World, requested: string, env: Env)
    ensures var after := Handle(w, Command.SetSplitTunnel(requested), env);
            && after.enabled == w.enabled && after.installed == w.installed
            && if requested == "include" && w.enabled then
                 after.mode == w.mode && after.frames == w.frames + [Warning, SplitTunnelUpdated(w.mode)]
               else
                 && (requested in ["off", "exclude", "include"] ==> after.mode == requested)
                 && (requested !in ["off", "exclude", "include"] ==> after.mode == "off")
                 && after.frames == w.frames + (if env.tunUp && !(env.reapplyOk && env.hijackOk) then [Warning]
                                                else [SplitTunnelUpdated(after.mode)])
  {
    assert requested in ["off", "exclude", "include"] <==> requested == "off" || requested == "exclude" || requested == "include";
  }

  // ---- safety ----

  /** No block while the switch is off, and never the switch with include mode.
      Neither half is inductive without the other. */
  predicate Safe(w: World) {
    (w.installed ==> w.enabled) && !(w.enabled && w.mode == "include")
  }

  /** Exactly what leads out of the safe states: test mode going around the checks,
      a forced switch-off that leaves the block behind, and a removal that fails in
      include mode, where the failure switches the kill switch on. */
  predicate Breaks(w: World, c: Command, env: Env) {
    c.SetKillSwitch? &&
    if env.testMode then (if c.enabled then w.mode == "include" else w.installed)
    else !c.enabled && (if c.force then AfterRemove(w.installed, env) else !env.removeOk && w.mode == "include")
  }

  lemma SwitchOffIsSafe(w: World, force: bool, env: Env)
    requires Safe(w)
    ensures Safe(SwitchOff(w, force, env)) <==>
            !(if force then AfterRemove(w.installed, env) else !env.removeOk && w.mode == "include")
  {
    hide StateFrame;
  }

  lemma SwitchOnIsSafe(w: World, env: Env)
    requires Safe(w) && w.mode != "include"
    ensures Safe(SwitchOn(w, env))
  {
    hide StateFrame;
  }

  lemma HandlerIsSafe(w: World, c: Command, env: Env)
    requires Safe(w)
    ensures Safe(Handle(w, c, env)) <==> !Breaks(w, c, env)
  {
    hide StateFrame, SwitchOff, SwitchOn;
    if c.SetKillSwitch? {
      SwitchOffIsSafe(w, c.force, env);
      if w.mode != "include" {
        SwitchOnIsSafe(w, env);
      }
    }
  }

  datatype Step = Step(command: Command, env: Env)

  function HandleAll(w: World, steps: seq<Step>): World
    decreases steps
  {
    if steps == [] then w else HandleAll(Handle(w, steps[0].command, steps[0].env), steps[1..])
  }

  /** Outside test mode, without force, and while removing a block that is not there
      does not fail. */
  predicate Ordinary(w: World, s: Step) {
    && !s.env.testMode
    && (s.command.SetKillSwitch? ==> !s.command.force)
    && (!w.installed ==> s.env.removeOk)
  }

  predicate OrdinaryRun(w: World, steps: seq<Step>)
    decreases steps
  {
    steps == [] || (Ordinary(w, steps[0]) && OrdinaryRun(Handle(w, steps[0].command, steps[0].env), steps[1..]))
  }

  /** Every state of an ordinary run is safe. */
  lemma {:induction false} RunsAreSafe(w: World, steps: seq<Step>)
    requires Safe(w) && OrdinaryRun(w, steps)
    ensures Safe(HandleAll(w, steps))
    decreases steps
  {
    if steps != [] {
      HandlerIsSafe(w, steps[0].command, steps[0].env);
      RunsAreSafe(Handle(w, steps[0].command, steps[0].env), steps[1..]);
    }
  }

  /** The frame tells the truth about the state it was sent in. */
  predicate Truthful(f: Frame, w: World) {
    match f
    case KillSwitchUpdated(enabled, armed) => enabled == w.enabled && (armed ==> w.installed)
    case SplitTunnelUpdated(mode) => mode == w.mode
    case Warning => true
  }

  /** Frames already sent are left alone, and the new ones are true. */
  predicate AddsTruth(w: World, after: World) {
    && w.frames <= after.frames
    && forall i :: |w.frames| <= i < |after.frames| ==> Truthful(after.frames[i], after)
  }

  lemma SentIsTrue(w: World, on: World, fs: seq<Frame>)
    requires on.frames == w.frames
    requires forall i :: 0 <= i < |fs| ==> Truthful(fs[i], on)
    ensures AddsTruth(w, Sent(on, fs))
  {
    hide Truthful;
    var after := Sent(on, fs);
    forall i | |w.frames| <= i < |after.frames| ensures Truthful(after.frames[i], after) {
      assert after.frames[i] == fs[i - |w.frames|];
      SameTruth(after.frames[i], on, after);
    }
  }

  lemma SameTruth(f: Frame, a: World, b: World)
    requires a.enabled == b.enabled && a.installed == b.installed && a.mode == b.mode
    ensures Truthful(f, a) <==> Truthful(f, b)
  {
  }

  /** Every frame a command sends carries the persisted intent, and says armed only
      when the block is installed. */
  lemma FramesAreTruthful(w: World, c: Command, env: Env)
    ensures AddsTruth(w, Handle(w, c, env))
  {
    hide Sent, AddsTruth;
    match c
    case SetKillSwitch(enabled, force) =>
      var gone := w.(installed := AfterRemove(w.installed, env));
      var armed := w.(enabled := true, installed := AfterSetup(env));
      var on := w.(enabled := true);
      SentIsTrue(w, w.(enabled := enabled), [KillSwitchUpdated(enabled, false)]);
      SentIsTrue(w, w, [Warning, StateFrame(w, env)]);
      SentIsTrue(w, gone.(enabled := false), [Warning, KillSwitchUpdated(false, false)]);
      SentIsTrue(w, gone.(enabled := true), [StateFrame(gone.(enabled := true), env), Warning]);
      SentIsTrue(w, gone.(enabled := false), [KillSwitchUpdated(false, false)]);
      SentIsTrue(w, on, [Warning, StateFrame(on, env)]);
      if env.setupOk {
        SentIsTrue(w, armed, [KillSwitchUpdated(true, true)]);
      }
      SentIsTrue(w, armed, [Warning, StateFrame(armed, env)]);
    case SetSplitTunnel(mode) =>
      var saved := w.(mode := SavedMode(mode));
      SentIsTrue(w, w, [Warning, SplitTunnelUpdated(w.mode)]);
      SentIsTrue(w, saved, [Warning]);
      SentIsTrue(w, saved, [SplitTunnelUpdated(saved.mode)]);
  }
}
