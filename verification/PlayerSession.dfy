/** One player session of src/web/mediastation.js, from startPlayback to finishPlayer:
    native playback events, episode switches, automatic skips and the exit.
    What the native side answers and whether its calls throw are parameters. */
module PlayerSession {
  import opened Wrappers

  datatype Card = Card(id: nat, isEpisode: bool, playable: bool, resumePositionMs: int, durationMs: int)

  datatype Setting = Setting(introSkipSeconds: nat, outroSkipSeconds: nat, autoNext: bool)

  datatype Trigger = Manual | Outro | Ended

  datatype Playback = Playback(loaded: bool, started: bool, playing: bool, buffering: bool)

  /** The two counters belong to the model: automatic actions since the visit began or
      the settings last changed. */
  datatype Automation = Automation(introSkipHandled: bool, outroSkipHandled: bool, disabled: bool,
                                   finishedDuringAdvance: bool, introSkips: nat, outroAdvances: nat)

  /** What belongs to the episode on screen; a failed switch brings all of it back. */
  datatype Visit = Visit(card: Card, positionMs: int, durationMs: int, playback: Playback, automation: Automation)

  datatype Exit = Exit(exiting: bool, stopSent: bool, stops: nat)  // stops: how many native stops succeeded

  datatype Transition = Transition(
    episodeChanging: bool, episodeResumePlaying: bool,
    autoAdvancePending: bool, autoAdvanceResumePlaying: bool,
    interpolationChanging: bool, interpolationResumePlaying: bool)

  /** A switch whose load has not been answered; several may be, because the native
      side may start an episode before it answers the load. */
  datatype Switching = Switching(previous: Visit, automatic: bool, trigger: Trigger)

  datatype Kind = Started | Paused | Buffering | Position | Seeked | Finished | Canceled | Failed

  datatype Event = Event(kind: Kind, positionMs: Option<int>, durationMs: Option<int>, seeking: bool, buffering: bool)

  /** Whether window.jmpNative exists, and whether its stop and seek succeed. */
  datatype Native = Native(present: bool, stops: bool, seeks: bool)

  predicate IntroHandled(setting: Setting, positionMs: int) {
    setting.introSkipSeconds == 0 || positionMs >= setting.introSkipSeconds * 1000
  }

  function Max(a: int, b: int): (max: int)
    ensures a <= max && b <= max && (max == a || max == b)
  {
    if a < b then b else a
  }

  datatype Player = Player(
    open: bool, visit: Visit, setting: Setting, exit: Exit, transition: Transition,
    scrubbing: bool, trackChanging: bool,
    loading: bool,                   // the first load has not been answered
    switches: seq<Switching>,
    advancing: Option<Trigger>,      // an advance that waits for the list of episodes
    interpolations: nat)             // model changes that have not been answered
  {
    function Closed(): Player {
      this.(open := false)
    }

    predicate Active() {
      open && !exit.exiting
    }

    function WithPlayback(playback: Playback): Player {
      this.(visit := visit.(playback := playback))
    }

    function WithAutomation(automation: Automation): Player {
      this.(visit := visit.(automation := automation))
    }

    function WithPosition(positionMs: int): Player {
      this.(visit := visit.(positionMs := positionMs))
    }

    // ------------------------------------------------------------ exit

    function StopSent(native: Native): Player {
      if !open || !exit.exiting || exit.stopSent then this
      else if native.present && native.stops then this.(exit := Exit(true, true, exit.stops + 1))
      else this.(exit := exit.(exiting := false))
    }

    function ExitRequested(native: Native): Player {
      if !Active() || !native.present then this
      else
        var p := this.(exit := exit.(exiting := true), scrubbing := false);
        if visit.playback.started then p.StopSent(native) else p
    }

    // ------------------------------------------------------------ episodes

    predicate MaySwitch(episode: Card) {
      && Active() && !trackChanging && !transition.episodeChanging && !transition.autoAdvancePending
      && episode.playable && visit.card.id != episode.id
    }

    function VisitOf(episode: Card, automatic: bool): Visit {
      var position := if automatic then 0 else Max(0, episode.resumePositionMs);
      Visit(episode, position, episode.durationMs,
            Playback(visit.playback.loaded, false, automatic || visit.playback.playing, false),
            Automation(IntroHandled(setting, position), false, false, false, 0, 0))
    }

    function Switched(episode: Card, automatic: bool, trigger: Trigger): Player {
      if !MaySwitch(episode) then this
      else this.(visit := VisitOf(episode, automatic),
                 transition := transition.(episodeChanging := true,
                                           episodeResumePlaying := automatic || visit.playback.playing),
                 switches := switches + [Switching(visit, automatic, trigger)])
    }

    function SwitchAnswered(i: nat, ok: bool): Player {
      if i >= |switches| then this
      else
        var p := this.(switches := switches[..i] + switches[i + 1..]);
        if !Active() then p
        else if ok then p.WithPlayback(visit.playback.(loaded := true))
        else p.SwitchedBack(switches[i])
    }

    function SwitchedBack(s: Switching): Player {
      var back := this.(transition := transition.(episodeChanging := false), visit := s.previous);
      if s.automatic && (s.trigger == Ended || s.previous.automation.finishedDuringAdvance) then back.Closed() else back
    }

    predicate MayAdvance() {
      Active() && !transition.episodeChanging && !transition.autoAdvancePending && setting.autoNext
    }

    function Advanced(trigger: Trigger): Player {
      if !MayAdvance() then this
      else
        var p := this.(transition := transition.(autoAdvancePending := true,
                                                 autoAdvanceResumePlaying := visit.playback.playing),
                       advancing := Some(trigger));
        if trigger == Ended then p.WithAutomation(visit.automation.(finishedDuringAdvance := true)) else p
    }

    /** The list of episodes has come; next is the one after the current card. */
    function AdvanceAnswered(next: Option<Card>): Player {
      if advancing.None? then this
      else if !Active() then this.(advancing := None)
      else if next.Some? then AdvanceOver().Switched(next.value, true, advancing.value)
      else if advancing.value == Ended || visit.automation.finishedDuringAdvance then AdvanceOver().Closed()
      else AdvanceOver()
    }

    function AdvanceOver(): Player {
      this.(advancing := None, transition := transition.(autoAdvancePending := false))
    }

    // ------------------------------------------------------------ automatic skips

    predicate BoundsConflict() {
      var introEnd, outroStart := setting.introSkipSeconds * 1000, visit.durationMs - setting.outroSkipSeconds * 1000;
      || (introEnd > 0 && introEnd >= visit.durationMs)
      || (setting.outroSkipSeconds > 0 && outroStart <= 0)
      || (introEnd > 0 && setting.outroSkipSeconds > 0 && introEnd >= outroStart)
    }

    predicate AutomationAllowed(seeking: bool) {
      && Active() && visit.card.isEpisode && !transition.episodeChanging && !transition.autoAdvancePending
      && visit.playback.started && !seeking && !visit.automation.disabled
    }

    function Automated(seeking: bool, native: Native): Player {
      if !AutomationAllowed(seeking) then this
      else if visit.durationMs != 0 && BoundsConflict() then WithAutomation(visit.automation.(disabled := true))
      else if visit.automation.introSkipHandled || setting.introSkipSeconds == 0 then OutroChecked()
      else if IntroHandled(setting, visit.positionMs) then
        WithAutomation(visit.automation.(introSkipHandled := true)).OutroChecked()
      else if !native.present then OutroChecked()
      else IntroSkipped(native.seeks)
    }

    /** Without a working seek the position is moved all the same and the skip stays open. */
    function IntroSkipped(seeks: bool): Player {
      var a, moved := visit.automation, WithPosition(setting.introSkipSeconds * 1000);
      if seeks then moved.WithAutomation(a.(introSkipHandled := true, introSkips := a.introSkips + 1)) else moved
    }

    function OutroChecked(): Player {
      var a := visit.automation;
      if !setting.autoNext || setting.outroSkipSeconds == 0 || a.outroSkipHandled
         || visit.positionMs < visit.durationMs - setting.outroSkipSeconds * 1000 then this
      else WithAutomation(a.(outroSkipHandled := true, outroAdvances := a.outroAdvances + 1)).Advanced(Outro)
    }

    function SettingChanged(s: Setting): Player {
      if !open || !visit.card.isEpisode then this
      else this.(setting := s).WithAutomation(
             Automation(IntroHandled(s, visit.positionMs), false, false, visit.automation.finishedDuringAdvance, 0, 0))
    }

    // ------------------------------------------------------------ native events

    function Moved(e: Event): Player {
      var position := if (e.kind == Position || e.kind == Seeked) && e.positionMs.Some? && !scrubbing
                      then e.positionMs.value else visit.positionMs;
      var duration := if e.durationMs.Some? && e.durationMs.value > 0 then e.durationMs.value else visit.durationMs;
      this.(visit := visit.(positionMs := position, durationMs := duration))
    }

    predicate Ignores(e: Event) {
      || !open
      || (e.kind == Canceled && (transition.interpolationChanging || transition.episodeChanging) && !exit.exiting)
    }

    /** What an event does before it is told apart by its kind. */
    function Observed(e: Event, native: Native): Player {
      match e.kind
      case Position => Moved(e).Automated(e.seeking, native)
      case Started => Moved(e).StopSent(native)
      case _ => Moved(e)
    }

    function Handled(e: Event, native: Native): Player {
      if Ignores(e) then this
      else
        var p := Observed(e, native);
        if p.exit.exiting && e.kind !in {Finished, Canceled, Failed} then p else p.Dispatched(e)
    }

    function Resumes(otherwise: bool): bool {
      if transition.interpolationChanging then transition.interpolationResumePlaying
      else if transition.episodeChanging then transition.episodeResumePlaying
      else otherwise
    }

    function FrameShown(): Player {
      this.(transition := transition.(interpolationChanging := false, episodeChanging := false))
          .WithPlayback(Playback(visit.playback.loaded, true, Resumes(true), false))
    }

    function PauseSeen(): Player {
      WithPlayback(visit.playback.(playing :=
        Resumes(transition.autoAdvancePending && transition.autoAdvanceResumePlaying)))
    }

    function EndSeen(): Player {
      if transition.autoAdvancePending then WithAutomation(visit.automation.(finishedDuringAdvance := true))
      else if visit.card.isEpisode && setting.autoNext then Advanced(Ended)
      else Closed()
    }

    function Dispatched(e: Event): Player {
      match e.kind
      case Started => FrameShown()
      case Paused => PauseSeen()
      case Buffering => WithPlayback(visit.playback.(buffering := e.buffering))
      case Finished => EndSeen()
      case Canceled => Closed()
      case Failed => Closed()
      case _ => this
    }

    // ------------------------------------------------------------ loads, model changes and controls

    function LoadAnswered(ok: bool): Player {
      if !loading then this
      else
        var p := this.(loading := false);
        if ok then p.WithPlayback(visit.playback.(loaded := true))
        else if exit.exiting && exit.stopSent then p
        else p.Closed()
    }

    function InterpolationChanged(different: bool): Player {
      if !Active() || !visit.playback.started || !visit.playback.loaded || transition.interpolationChanging
         || !different then this
      else this.(transition := transition.(interpolationChanging := true,
                                           interpolationResumePlaying := visit.playback.playing),
                 interpolations := interpolations + 1)
    }

    function InterpolationAnswered(ok: bool): Player {
      if interpolations == 0 then this
      else
        var p := this.(interpolations := interpolations - 1);
        if !Active() || ok then p
        else p.(transition := transition.(interpolationChanging := false))
              .WithPlayback(visit.playback.(playing := transition.interpolationResumePlaying))
    }

    function SeekCommitted(targetMs: int, native: Native): Player {
      if !open then this
      else if !Active() || !native.present then this.(scrubbing := false)
      else this.(scrubbing := false).WithPosition(targetMs)
    }

    function PlaybackToggled(native: Native): Player {
      if !Active() || !native.present then this
      else if transition.interpolationChanging then
        var resume := !transition.interpolationResumePlaying;
        this.(transition := transition.(interpolationResumePlaying := resume))
            .WithPlayback(visit.playback.(playing := resume))
      else WithPlayback(visit.playback.(playing := !visit.playback.playing))
    }
  }

  /** startPlayback. */
  function Opened(card: Card, startMs: int, setting: Setting): Player {
    Player(true,
           Visit(card, startMs, card.durationMs, Playback(false, false, true, false),
                 Automation(IntroHandled(setting, Max(0, startMs)), false, false, false, 0, 0)),
           setting, Exit(false, false, 0), Transition(false, true, false, true, false, true),
           false, false, true, [], None, 0)
  }

  // ---------------------------------------------------------------- runs

  datatype Step =
    | RequestExit(native: Native)
    | OnEvent(event: Event, native: Native)
    | ChooseEpisode(episode: Card)
    | AnswerSwitch(switch: nat, ok: bool)
    | AnswerEpisodes(next: Option<Card>)
    | AnswerLoad(ok: bool)
    | ChangeSetting(setting: Setting)
    | ChangeInterpolation(different: bool)
    | AnswerInterpolation(ok: bool)
    | TogglePlayback(native: Native)
    | PreviewSeek
    | CommitSeek(targetMs: int, native: Native)
    | ChangeTrack(on: bool)

  function Next(p: Player, step: Step): Player {
    match step
    case RequestExit(native) => p.ExitRequested(native)
    case OnEvent(e, native) => p.Handled(e, native)
    case ChooseEpisode(episode) => p.Switched(episode, false, Manual)
    case AnswerSwitch(i, ok) => p.SwitchAnswered(i, ok)
    case AnswerEpisodes(next) => p.AdvanceAnswered(next)
    case AnswerLoad(ok) => p.LoadAnswered(ok)
    case ChangeSetting(setting) => p.SettingChanged(setting)
    case ChangeInterpolation(different) => p.InterpolationChanged(different)
    case AnswerInterpolation(ok) => p.InterpolationAnswered(ok)
    case TogglePlayback(native) => p.PlaybackToggled(native)
    case PreviewSeek => if p.Active() then p.(scrubbing := true) else p
    case CommitSeek(target, native) => p.SeekCommitted(target, native)
    case ChangeTrack(on) => if p.open && (!on || p.Active()) then p.(trackChanging := on) else p
  }

  function Run(p: Player, steps: seq<Step>): Player
    decreases |steps|
  {
    if steps == [] then p else Run(Next(p, steps[0]), steps[1..])
  }

  // ---------------------------------------------------------------- the code

  /** The fields are always those of a run: whatever holds of every run holds of them. */
  class ActivePlayer {
    var open: bool
    var visit: Visit
    var setting: Setting
    var exit: Exit
    var transition: Transition
    var scrubbing: bool
    var trackChanging: bool
    var loading: bool
    var switches: seq<Switching>
    var advancing: Option<Trigger>
    var interpolations: nat
    ghost const initial: Player
    ghost var steps: seq<Step>  // everything since the session was opened

    function View(): Player
      reads this
    {
      Player(open, visit, setting, exit, transition, scrubbing, trackChanging, loading, switches, advancing,
             interpolations)
    }

    ghost predicate Valid()
      reads this
    {
      Inv(initial) && View() == Run(initial, steps)
    }

    constructor StartPlayback(card: Card, startMs: int, s: Setting)
      ensures Valid() && steps == [] && initial == Opened(card, startMs, s) == View()
    {
      initial, steps := Opened(card, startMs, s), [];
      open, setting := true, s;
      visit := Visit(card, startMs, card.durationMs, Playback(false, false, true, false),
                     Automation(IntroHandled(s, Max(0, startMs)), false, false, false, 0, 0));
      exit, transition := Exit(false, false, 0), Transition(false, true, false, true, false, true);
      scrubbing, trackChanging, loading := false, false, true;
      switches, advancing, interpolations := [], None, 0;
    }

    /** A stop is sent once at most; if it throws, the exit is taken back. */
    method SendPlayerStop(native: Native)
      requires ExitInv(exit)
      modifies this`exit
      ensures View() == old(View()).StopSent(native)
      ensures StopTried(old(View()), View(), native)
    {
      if !open || !exit.exiting || exit.stopSent {
        return;
      }
      exit := exit.(stopSent := true);
      if native.present && native.stops {
        exit := exit.(stops := exit.stops + 1);
      } else {
        exit := exit.(stopSent := false, exiting := false);
      }
    }

    method RequestPlayerExit(native: Native)
      requires Valid()
      modifies this`exit, this`scrubbing, this`steps
      ensures Valid() && steps == old(steps) + [RequestExit(native)]
      ensures View() == old(View()).ExitRequested(native)
      ensures ExitAsked(old(View()), View(), native)
    {
      StepTaken(initial, steps, RequestExit(native));
      AskingExit(View(), native);
      steps := steps + [RequestExit(native)];
      if !open || exit.exiting || !native.present {
        return;
      }
      exit := exit.(exiting := true);
      scrubbing := false;
      if visit.playback.started {
        SendPlayerStop(native);
      }
    }

    /** The user picks an episode. */
    method ChooseOtherEpisode(episode: Card)
      requires Valid()
      modifies this`visit, this`transition, this`switches, this`steps
      ensures Valid() && steps == old(steps) + [ChooseEpisode(episode)]
      ensures View() == old(View()).Switched(episode, false, Manual)
      ensures SwitchTaken(old(View()), View(), episode, false, Manual)
    {
      StepTaken(initial, steps, ChooseEpisode(episode));
      SwitchPlayerEpisode(episode, false, Manual);
      steps := steps + [ChooseEpisode(episode)];
    }

    /** Until the first frame of the new episode nothing else changes it, and a load that
        fails brings the previous visit back. */
    method SwitchPlayerEpisode(episode: Card, automatic: bool, trigger: Trigger)
      modifies this`visit, this`transition, this`switches
      ensures View() == old(View()).Switched(episode, automatic, trigger)
      ensures SwitchTaken(old(View()), View(), episode, automatic, trigger)
    {
      TakingSwitch(View(), episode, automatic, trigger);
      if !open || exit.exiting || trackChanging || transition.episodeChanging || transition.autoAdvancePending
         || !episode.playable {
        return;
      }
      if visit.card.id == episode.id {
        return;
      }
      var previous := visit;
      var resume := automatic || previous.playback.playing;
      transition := transition.(episodeChanging := true, episodeResumePlaying := resume);
      var position := if automatic then 0 else Max(0, episode.resumePositionMs);
      visit := Visit(episode, position, episode.durationMs, Playback(previous.playback.loaded, false, resume, false),
                     Automation(IntroHandled(setting, position), false, false, false, 0, 0));
      switches := switches + [Switching(previous, automatic, trigger)];
    }

    method OnSwitchReply(i: nat, ok: bool)
      requires Valid()
      modifies this`open, this`visit, this`transition, this`switches, this`steps
      ensures Valid() && steps == old(steps) + [AnswerSwitch(i, ok)]
      ensures View() == old(View()).SwitchAnswered(i, ok)
      ensures SwitchReplied(old(View()), View(), i, ok)
    {
      StepTaken(initial, steps, AnswerSwitch(i, ok));
      ReplyingSwitch(View(), i, ok);
      steps := steps + [AnswerSwitch(i, ok)];
      TakeSwitchReply(i, ok);
    }

    method TakeSwitchReply(i: nat, ok: bool)
      modifies this`open, this`visit, this`transition, this`switches
      ensures View() == old(View()).SwitchAnswered(i, ok)
    {
      if i >= |switches| {
        return;
      }
      var s := switches[i];
      switches := switches[..i] + switches[i + 1..];
      if !open || exit.exiting {
        return;
      }
      if ok {
        visit := visit.(playback := visit.playback.(loaded := true));
        return;
      }
      transition := transition.(episodeChanging := false);
      visit := s.previous;
      if s.automatic && (s.trigger == Ended || s.previous.automation.finishedDuringAdvance) {
        open := false;
      }
    }

    /** A second trigger has no effect, and nothing else changes the episode meanwhile. */
    method AdvanceToNextEpisode(trigger: Trigger)
      modifies this`visit, this`transition, this`advancing
      ensures View() == old(View()).Advanced(trigger)
      ensures AdvanceTaken(old(View()), View(), trigger)
    {
      if !open || exit.exiting || transition.episodeChanging || transition.autoAdvancePending || !setting.autoNext {
        return;
      }
      transition := transition.(autoAdvancePending := true, autoAdvanceResumePlaying := visit.playback.playing);
      if trigger == Ended {
        visit := visit.(automation := visit.automation.(finishedDuringAdvance := true));
      }
      advancing := Some(trigger);
    }

    method OnEpisodes(next: Option<Card>)
      requires Valid()
      modifies this`open, this`visit, this`transition, this`switches, this`advancing, this`steps
      ensures Valid() && steps == old(steps) + [AnswerEpisodes(next)]
      ensures View() == old(View()).AdvanceAnswered(next)
      ensures EpisodesTaken(old(View()), View(), next)
    {
      StepTaken(initial, steps, AnswerEpisodes(next));
      TakingEpisodes(View(), next);
      steps := steps + [AnswerEpisodes(next)];
      TakeEpisodes(next);
    }

    method TakeEpisodes(next: Option<Card>)
      modifies this`open, this`visit, this`transition, this`switches, this`advancing
      ensures View() == old(View()).AdvanceAnswered(next)
    {
      if advancing.None? {
        return;
      }
      var trigger := advancing.value;
      advancing := None;
      if !open || exit.exiting {
        return;
      }
      transition := transition.(autoAdvancePending := false);
      if next.Some? {
        SwitchPlayerEpisode(next.value, true, trigger);
      } else if trigger == Ended || visit.automation.finishedDuringAdvance {
        open := false;
      }
    }

    method MaybeHandleEpisodeAutomation(seeking: bool, native: Native)
      modifies this`visit, this`transition, this`advancing
      ensures View() == old(View()).Automated(seeking, native)
      ensures AutomationTaken(old(View()), View(), seeking, native)
    {
      Automating(View(), seeking, native);
      Automate(seeking, native);
    }

    method Automate(seeking: bool, native: Native)
      modifies this`visit, this`transition, this`advancing
      ensures View() == old(View()).Automated(seeking, native)
    {
      if !open || !visit.card.isEpisode || exit.exiting || transition.episodeChanging || transition.autoAdvancePending
         || !visit.playback.started || seeking || visit.automation.disabled {
        return;
      }
      if visit.durationMs != 0 && View().BoundsConflict() {
        visit := visit.(automation := visit.automation.(disabled := true));
        return;
      }
      var introEnd := setting.introSkipSeconds * 1000;
      if !visit.automation.introSkipHandled && introEnd > 0 {
        if visit.positionMs >= introEnd {
          visit := visit.(automation := visit.automation.(introSkipHandled := true));
        } else if native.present {
          SkipIntro(native.seeks);
          return;
        }
      }
      CheckOutro();
    }

    method SkipIntro(seeks: bool)
      modifies this`visit
      ensures View() == old(View()).IntroSkipped(seeks)
    {
      var a := visit.automation;
      visit := visit.(positionMs := setting.introSkipSeconds * 1000);
      if seeks {
        visit := visit.(automation := a.(introSkipHandled := true, introSkips := a.introSkips + 1));
      }
    }

    method CheckOutro()
      modifies this`visit, this`transition, this`advancing
      ensures View() == old(View()).OutroChecked()
    {
      var a := visit.automation;
      if !setting.autoNext || setting.outroSkipSeconds == 0 || a.outroSkipHandled {
        return;
      }
      if visit.positionMs < visit.durationMs - setting.outroSkipSeconds * 1000 {
        return;
      }
      visit := visit.(automation := a.(outroSkipHandled := true, outroAdvances := a.outroAdvances + 1));
      AdvanceToNextEpisode(Outro);
    }

    method HandlePlaybackEvent(e: Event, native: Native)
      requires Valid()
      modifies this`open, this`visit, this`exit, this`transition, this`advancing, this`steps
      ensures Valid() && steps == old(steps) + [OnEvent(e, native)]
      ensures View() == old(View()).Handled(e, native)
      ensures EventTaken(old(View()), View(), e)
      ensures PlayheadTaken(old(View()), View(), e, native) && PlaybackTaken(old(View()), View(), e)
    {
      StepTaken(initial, steps, OnEvent(e, native));
      TakingEvent(View(), e, native);
      MovingPlayhead(View(), e, native);
      ShowingPlayback(View(), e, native);
      steps := steps + [OnEvent(e, native)];
      Handle(e, native);
    }

    method Handle(e: Event, native: Native)
      requires ExitInv(exit)
      modifies this`open, this`visit, this`exit, this`transition, this`advancing
      ensures View() == old(View()).Handled(e, native)
    {
      if !open {
        return;
      }
      if e.kind == Canceled && (transition.interpolationChanging || transition.episodeChanging) && !exit.exiting {
        return;
      }
      Observe(e, native);
      if exit.exiting && e.kind !in {Finished, Canceled, Failed} {
        return;
      }
      Dispatch(e);
    }

    method Observe(e: Event, native: Native)
      requires ExitInv(exit)
      modifies this`visit, this`exit, this`transition, this`advancing
      ensures View() == old(View()).Observed(e, native)
    {
      Move(e);
      if e.kind == Position {
        MaybeHandleEpisodeAutomation(e.seeking, native);
      } else if e.kind == Started {
        SendPlayerStop(native);
      }
    }

    method Move(e: Event)
      modifies this`visit
      ensures View() == old(View()).Moved(e)
    {
      if (e.kind == Position || e.kind == Seeked) && e.positionMs.Some? && !scrubbing {
        visit := visit.(positionMs := e.positionMs.value);
      }
      if e.durationMs.Some? && e.durationMs.value > 0 {
        visit := visit.(durationMs := e.durationMs.value);
      }
    }

    method Dispatch(e: Event)
      modifies this`open, this`visit, this`transition, this`advancing
      ensures View() == old(View()).Dispatched(e)
    {
      match e.kind
      case Started =>
        var shouldPlay := View().Resumes(true);
        transition := transition.(interpolationChanging := false, episodeChanging := false);
        visit := visit.(playback := Playback(visit.playback.loaded, true, shouldPlay, false));
      case Paused =>
        var playing := View().Resumes(transition.autoAdvancePending && transition.autoAdvanceResumePlaying);
        visit := visit.(playback := visit.playback.(playing := playing));
      case Buffering =>
        visit := visit.(playback := visit.playback.(buffering := e.buffering));
      case Finished =>
        if transition.autoAdvancePending {
          visit := visit.(automation := visit.automation.(finishedDuringAdvance := true));
        } else if visit.card.isEpisode && setting.autoNext {
          AdvanceToNextEpisode(Ended);
        } else {
          open := false;
        }
      case Canceled => open := false;
      case Failed => open := false;
      case _ =>
    }
  }

  // ---------------------------------------------------------------- the invariant

  /** An automatic action that has been taken is marked as handled. */
  predicate AutomationInv(a: Automation) {
    && a.introSkips <= (if a.introSkipHandled then 1 else 0)
    && a.outroAdvances <= (if a.outroSkipHandled then 1 else 0)
  }

  predicate SwitchesInv(switches: seq<Switching>) {
    forall s | s in switches :: AutomationInv(s.previous.automation)
  }

  predicate ExitInv(e: Exit) {
    e.stops == (if e.stopSent then 1 else 0) && (e.stopSent ==> e.exiting)
  }

  predicate TransitionInv(t: Transition, started: bool, advancing: Option<Trigger>) {
    && (t.episodeChanging ==> !started) && !(t.episodeChanging && t.autoAdvancePending)
    && (advancing.Some? ==> t.autoAdvancePending)
  }

  predicate Inv(p: Player) {
    && AutomationInv(p.visit.automation) && SwitchesInv(p.switches) && ExitInv(p.exit)
    && TransitionInv(p.transition, p.visit.playback.started, p.advancing)
    && (p.exit.exiting && p.visit.playback.started ==> p.exit.stopSent)
  }

  lemma ExitKeepsInv(p: Player, native: Native)
    requires Inv(p)
    ensures Inv(p.StopSent(native)) && Inv(p.ExitRequested(native))
  {
  }

  lemma SwitchKeepsInv(p: Player, episode: Card, automatic: bool, trigger: Trigger)
    requires Inv(p)
    ensures Inv(p.Switched(episode, automatic, trigger))
  {
  }

  lemma SwitchAnswerKeepsInv(p: Player, i: nat, ok: bool)
    requires Inv(p)
    ensures Inv(p.SwitchAnswered(i, ok))
  {
    if i < |p.switches| {
      assert p.switches[i] in p.switches;
    }
  }

  lemma AdvanceKeepsInv(p: Player, trigger: Trigger)
    requires Inv(p)
    ensures Inv(p.Advanced(trigger))
  {
  }

  lemma AdvanceOverKeepsInv(p: Player)
    requires Inv(p)
    ensures Inv(p.AdvanceOver()) && Inv(p.(advancing := None))
  {
  }

  lemma EpisodesKeepInv(p: Player, next: Option<Card>)
    requires Inv(p)
    ensures Inv(p.AdvanceAnswered(next))
  {
    AdvanceOverKeepsInv(p);
    if p.advancing.Some? && p.Active() && next.Some? {
      SwitchKeepsInv(p.AdvanceOver(), next.value, true, p.advancing.value);
    }
  }

  lemma OutroKeepsInv(p: Player)
    requires Inv(p)
    ensures Inv(p.OutroChecked())
  {
    var a := p.visit.automation;
    if !a.outroSkipHandled {
      AdvanceKeepsInv(p.WithAutomation(a.(outroSkipHandled := true, outroAdvances := a.outroAdvances + 1)), Outro);
    }
  }

  lemma SkipKeepsInv(p: Player, seeks: bool)
    requires Inv(p) && !p.visit.automation.introSkipHandled
    ensures Inv(p.IntroSkipped(seeks))
  {
  }

  lemma WithAutomationKeepsInv(p: Player, a: Automation)
    requires Inv(p) && AutomationInv(a)
    ensures Inv(p.WithAutomation(a))
  {
  }

  lemma AutomatedKeepsInv(p: Player, seeking: bool, native: Native)
    requires Inv(p)
    ensures Inv(p.Automated(seeking, native))
  {
    var a := p.visit.automation;
    WithAutomationKeepsInv(p, a.(disabled := true));
    WithAutomationKeepsInv(p, a.(introSkipHandled := true));
    OutroKeepsInv(p);
    OutroKeepsInv(p.WithAutomation(a.(introSkipHandled := true)));
    if !a.introSkipHandled {
      SkipKeepsInv(p, native.seeks);
    }
  }

  lemma ObservedKeepsInv(p: Player, e: Event, native: Native)
    requires Inv(p)
    ensures Inv(p.Observed(e, native))
  {
    assert Inv(p.Moved(e));
    AutomatedKeepsInv(p.Moved(e), e.seeking, native);
    ExitKeepsInv(p.Moved(e), native);
  }

  lemma FrameKeepsInv(p: Player)
    requires Inv(p) && !p.exit.exiting
    ensures Inv(p.FrameShown())
  {
  }

  lemma PlaybackKeepsInv(p: Player, playback: Playback)
    requires Inv(p) && playback.started == p.visit.playback.started
    ensures Inv(p.WithPlayback(playback))
  {
  }

  lemma EndKeepsInv(p: Player)
    requires Inv(p)
    ensures Inv(p.EndSeen())
  {
    AdvanceKeepsInv(p, Ended);
    WithAutomationKeepsInv(p, p.visit.automation.(finishedDuringAdvance := true));
  }

  lemma PauseKeepsInv(p: Player)
    requires Inv(p)
    ensures Inv(p.PauseSeen())
  {
  }

  lemma CloseKeepsInv(p: Player)
    requires Inv(p)
    ensures Inv(p.Closed())
  {
  }

  lemma DispatchedKeepsInv(p: Player, e: Event)
    requires Inv(p) && (e.kind == Started ==> !p.exit.exiting)
    ensures Inv(p.Dispatched(e))
  {
    match e.kind
    case Started => FrameKeepsInv(p);
    case Paused => PauseKeepsInv(p);
    case Buffering => PlaybackKeepsInv(p, p.visit.playback.(buffering := e.buffering));
    case Finished => EndKeepsInv(p);
    case Canceled => CloseKeepsInv(p);
    case Failed => CloseKeepsInv(p);
    case _ =>
  }

  lemma EventKeepsInv(p: Player, e: Event, native: Native)
    requires Inv(p)
    ensures Inv(p.Handled(e, native))
  {
    ObservedKeepsInv(p, e, native);
    if e.kind != Started || !p.Observed(e, native).exit.exiting {
      DispatchedKeepsInv(p.Observed(e, native), e);
    }
  }

  lemma LoadKeepsInv(p: Player, ok: bool)
    requires Inv(p)
    ensures Inv(p.LoadAnswered(ok))
  {
    PlaybackKeepsInv(p.(loading := false), p.visit.playback.(loaded := true));
  }

  lemma SettingKeepsInv(p: Player, s: Setting)
    requires Inv(p)
    ensures Inv(p.SettingChanged(s))
  {
  }

  lemma InterpolationKeepsInv(p: Player, flag: bool)
    requires Inv(p)
    ensures Inv(p.InterpolationChanged(flag)) && Inv(p.InterpolationAnswered(flag))
  {
  }

  lemma ToggleKeepsInv(p: Player, native: Native)
    requires Inv(p)
    ensures Inv(p.PlaybackToggled(native))
  {
  }

  lemma StepKeepsInv(p: Player, step: Step)
    requires Inv(p)
    ensures Inv(Next(p, step))
  {
    match step
    case RequestExit(native) => ExitKeepsInv(p, native);
    case OnEvent(e, native) => EventKeepsInv(p, e, native);
    case ChooseEpisode(episode) => SwitchKeepsInv(p, episode, false, Manual);
    case AnswerSwitch(i, ok) => SwitchAnswerKeepsInv(p, i, ok);
    case AnswerEpisodes(next) => EpisodesKeepInv(p, next);
    case AnswerLoad(ok) => LoadKeepsInv(p, ok);
    case ChangeSetting(setting) => SettingKeepsInv(p, setting);
    case ChangeInterpolation(different) => InterpolationKeepsInv(p, different);
    case AnswerInterpolation(ok) => InterpolationKeepsInv(p, ok);
    case TogglePlayback(native) => ToggleKeepsInv(p, native);
    case _ =>
  }

  lemma {:induction false} RunKeepsInv(p: Player, steps: seq<Step>)
    requires Inv(p)
    ensures Inv(Run(p, steps))
    decreases |steps|
  {
    if steps != [] {
      StepKeepsInv(p, steps[0]);
      RunKeepsInv(Next(p, steps[0]), steps[1..]);
    }
  }

  /** Main result: in every run stopSent implies exiting, an exit during playback has sent
      its stop, at most one native stop succeeds, a changing episode has not started, an episode change and a pending
      advance exclude each other, and each visit sees at most one intro skip and one
      outro advance while its settings stay. */
  lemma {:induction false} SessionStaysSound(card: Card, startMs: int, setting: Setting, steps: seq<Step>)
    ensures var p := Run(Opened(card, startMs, setting), steps);
      && (p.exit.stopSent ==> p.exit.exiting) && p.exit.stops <= 1
      && (p.exit.exiting && p.visit.playback.started ==> p.exit.stopSent)
      && (p.transition.episodeChanging ==> !p.visit.playback.started)
      && !(p.transition.episodeChanging && p.transition.autoAdvancePending)
      && p.visit.automation.introSkips <= 1 && p.visit.automation.outroAdvances <= 1
  {
    RunKeepsInv(Opened(card, startMs, setting), steps);
  }

  // ---------------------------------------------------------------- what each event promises

  lemma {:induction false} RunGrows(p: Player, steps: seq<Step>, step: Step)
    ensures Run(p, steps + [step]) == Next(Run(p, steps), step)
    decreases |steps|
  {
    if steps != [] {
      assert (steps + [step])[1..] == steps[1..] + [step];
      RunGrows(Next(p, steps[0]), steps[1..], step);
    }
  }

  lemma StepTaken(initial: Player, steps: seq<Step>, step: Step)
    requires Inv(initial)
    ensures Run(initial, steps + [step]) == Next(Run(initial, steps), step)
    ensures ExitInv(Run(initial, steps).exit)
  {
    RunGrows(initial, steps, step);
    RunKeepsInv(initial, steps);
  }

  /** A stop that succeeds is sent once and for all; one that throws takes the exit back,
      so that it may be requested again. In neither case does a second stop do anything. */
  ghost predicate StopTried(p: Player, p': Player, native: Native) {
    && p' == p.(exit := p'.exit) && ExitInv(p'.exit) && p'.exit.stops <= 1
    && (p.open && p.exit.exiting ==> (p'.exit.exiting <==> p.exit.stopSent || (native.present && native.stops)))
    && (p.open ==> (p'.exit.exiting <==> p'.exit.stopSent))
    && (forall again :: p'.StopSent(again) == p')
  }

  /** While playback shows a frame the exit stands exactly as long as its one stop; before
      the first frame it stands without one. A second request changes nothing. */
  ghost predicate ExitAsked(p: Player, p': Player, native: Native) {
    && p'.visit == p.visit && p'.transition == p.transition && p'.open == p.open
    && (!p.Active() || !native.present ==> p' == p)
    && (p.Active() && native.present ==>
          && !p'.scrubbing && (p'.exit.exiting <==> !p.visit.playback.started || native.stops)
          && p'.exit.stops == if p.visit.playback.started && native.stops then 1 else 0)
    && (p'.exit.exiting ==> forall again :: p'.ExitRequested(again) == p')
  }

  lemma AskingExit(p: Player, native: Native)
    requires ExitInv(p.exit)
    ensures ExitAsked(p, p.ExitRequested(native), native)
  {
  }

  /** Nothing but an answer or the first frame changes the episode. */
  ghost predicate Settled(p: Player) {
    && (forall episode :: !p.MaySwitch(episode)) && !p.MayAdvance()
    && (forall seeking :: !p.AutomationAllowed(seeking))
  }

  /** An open session that nobody is leaving and whose episode is not about to change. */
  predicate StaysHere(p: Player) {
    p.open && !p.exit.exiting && !p.transition.episodeChanging && !p.transition.autoAdvancePending
  }

  predicate MayFollow(p: Player, next: Card) {
    StaysHere(p) && !p.trackChanging && next.playable && next.id != p.visit.card.id
  }

  /** The new visit is the one that startPlayback would open for the episode, except that it
      plays as before, or at once if the switch was automatic. */
  ghost predicate SwitchTaken(p: Player, p': Player, episode: Card, automatic: bool, trigger: Trigger) {
    var position := if automatic then 0 else Max(0, episode.resumePositionMs);
    if !MayFollow(p, episode) then p' == p
    else
      && p'.visit == Opened(episode, position, p.setting).visit.(playback := p'.visit.playback)
      && p'.visit.playback
         == Playback(p.visit.playback.loaded, false, automatic || p.visit.playback.playing, false)
      && p'.switches == p.switches + [Switching(p.visit, automatic, trigger)] && Settled(p')
      && p'.SwitchAnswered(|p.switches|, false).visit == p.visit
  }

  lemma TakingSwitch(p: Player, episode: Card, automatic: bool, trigger: Trigger)
    ensures SwitchTaken(p, p.Switched(episode, automatic, trigger), episode, automatic, trigger)
  {
  }

  /** An answer after the exit was requested changes nothing on the screen; a load that
      succeeds only marks it; one that fails brings the previous visit back, and closes
      the session only if that one had ended. */
  predicate SwitchReplied(p: Player, p': Player, i: nat, ok: bool) {
    i < |p.switches| ==>
      var s := p.switches[i];
      && |p'.switches| == |p.switches| - 1
      && (!p.Active() ==> p'.visit == p.visit && p'.transition == p.transition && p'.open == p.open)
      && (p.Active() && ok ==>
            && p'.visit == p.visit.(playback := p.visit.playback.(loaded := true)) && p'.open
            && p'.transition == p.transition)
      && (p.Active() && !ok ==>
            && p'.visit == s.previous && !p'.transition.episodeChanging
            && (p'.open <==> !(s.automatic && (s.trigger == Ended || s.previous.automation.finishedDuringAdvance))))
  }

  lemma ReplyingSwitch(p: Player, i: nat, ok: bool)
    ensures SwitchReplied(p, p.SwitchAnswered(i, ok), i, ok)
  {
  }

  /** Only a session that stays here and is set to go on waits for the next episode; whether
      its own has ended is remembered. */
  ghost predicate AdvanceTaken(p: Player, p': Player, trigger: Trigger) {
    && (!(StaysHere(p) && p.setting.autoNext) ==> p' == p)
    && (StaysHere(p) && p.setting.autoNext ==>
          && Settled(p') && p'.advancing == Some(trigger)
          && p'.visit == p.visit.(automation := p'.visit.automation)
          && p'.visit.automation
             == p.visit.automation.(finishedDuringAdvance := p'.visit.automation.finishedDuringAdvance)
          && (p'.visit.automation.finishedDuringAdvance <==>
                p.visit.automation.finishedDuringAdvance || trigger == Ended))
    && (forall again :: p'.Advanced(again) == p')
  }

  /** The pending advance is over exactly if the exit was not requested; then the session
      switches to the next episode, stays, or closes because the last one has ended. */
  ghost predicate EpisodesTaken(p: Player, p': Player, next: Option<Card>) {
    && (p.advancing.None? ==> p' == p)
    && (p.advancing.Some? ==> p'.advancing.None?)
    && (p.advancing.Some? && !p.Active() ==> p'.visit == p.visit && p'.transition == p.transition && p'.open == p.open)
    && (p.advancing.Some? && p.Active() ==>
          && !p'.transition.autoAdvancePending
          && (p'.open <==> next.Some? || !(p.advancing.value == Ended || p.visit.automation.finishedDuringAdvance))
          && (next.Some? ==> SwitchTaken(p.AdvanceOver(), p', next.value, true, p.advancing.value))
          && (next.None? ==> p'.visit == p.visit))
  }

  lemma TakingEpisodes(p: Player, next: Option<Card>)
    ensures EpisodesTaken(p, p.AdvanceAnswered(next), next)
  {
    if p.advancing.Some? && p.Active() && next.Some? {
      TakingSwitch(p.AdvanceOver(), next.value, true, p.advancing.value);
    }
  }

  /** Intro and outro of a known duration leave something of the episode. */
  predicate LeavesSomething(p: Player) {
    || p.visit.durationMs == 0
    || (p.setting.introSkipSeconds == 0 && p.setting.outroSkipSeconds == 0)
    || p.setting.introSkipSeconds * 1000 < p.visit.durationMs - p.setting.outroSkipSeconds * 1000
  }

  lemma ConflictLeavesNothing(p: Player)
    ensures LeavesSomething(p) <==> p.visit.durationMs == 0 || !p.BoundsConflict()
  {
  }

  /** An episode is being played, and nobody is leaving, changing or seeking it. */
  predicate PlaysUndisturbed(p: Player, seeking: bool) {
    && p.open && p.visit.card.isEpisode && p.visit.playback.started && !p.visit.automation.disabled
    && !p.exit.exiting && !seeking && !p.transition.episodeChanging && !p.transition.autoAdvancePending
  }

  predicate MayAct(p: Player, seeking: bool) {
    PlaysUndisturbed(p, seeking) && LeavesSomething(p)
  }

  /** The position is inside the intro, and the native side can be told to leave it. */
  predicate IntroDue(p: Player, seeking: bool, native: Native) {
    && MayAct(p, seeking) && !p.visit.automation.introSkipHandled && native.present
    && 0 < p.setting.introSkipSeconds && p.visit.positionMs < p.setting.introSkipSeconds * 1000
  }

  /** The position has reached the outro, which has not been acted upon. */
  predicate OutroDue(p: Player, seeking: bool, native: Native) {
    && MayAct(p, seeking) && !IntroDue(p, seeking, native)
    && p.setting.autoNext && 0 < p.setting.outroSkipSeconds && !p.visit.automation.outroSkipHandled
    && p.visit.durationMs <= p.visit.positionMs + p.setting.outroSkipSeconds * 1000
  }

  /** The intro is skipped exactly when it is due and the seek works, the next episode asked
      for exactly when the outro is due, and otherwise nothing moves; settings that leave
      nothing of the episode turn automation off. */
  ghost predicate AutomationTaken(p: Player, p': Player, seeking: bool, native: Native) {
    var a, a' := p.visit.automation, p'.visit.automation;
    && (!PlaysUndisturbed(p, seeking) ==> p' == p)
    && p'.open == p.open && p'.exit == p.exit && p'.visit.card == p.visit.card
    && a'.introSkips == a.introSkips + (if IntroDue(p, seeking, native) && native.seeks then 1 else 0)
    && a'.outroAdvances == a.outroAdvances + (if OutroDue(p, seeking, native) then 1 else 0)
    && p'.visit.positionMs
       == (if IntroDue(p, seeking, native) then p.setting.introSkipSeconds * 1000 else p.visit.positionMs)
    && (a'.disabled <==> a.disabled || (PlaysUndisturbed(p, seeking) && !LeavesSomething(p)))
    && (a'.introSkipHandled <==>
          || a.introSkipHandled || (IntroDue(p, seeking, native) && native.seeks)
          || (MayAct(p, seeking) && 0 < p.setting.introSkipSeconds * 1000 <= p.visit.positionMs))
    && (a'.outroSkipHandled <==> a.outroSkipHandled || OutroDue(p, seeking, native))
    && (if OutroDue(p, seeking, native) then p'.advancing == Some(Outro) && Settled(p')
        else p'.advancing == p.advancing && p'.transition == p.transition)
  }

  lemma CheckingOutro(p: Player, seeking: bool, native: Native)
    requires MayAct(p, seeking) && !IntroDue(p, seeking, native)
    requires p.visit.automation.introSkipHandled || p.visit.positionMs < p.setting.introSkipSeconds * 1000
             || p.setting.introSkipSeconds == 0
    ensures AutomationTaken(p, p.OutroChecked(), seeking, native)
  {
  }

  lemma MarkingIntro(p: Player, seeking: bool, native: Native)
    requires MayAct(p, seeking) && 0 < p.setting.introSkipSeconds * 1000 <= p.visit.positionMs
    ensures AutomationTaken(p, p.WithAutomation(p.visit.automation.(introSkipHandled := true)).OutroChecked(),
                            seeking, native)
  {
  }

  lemma Disabling(p: Player, seeking: bool, native: Native)
    requires p.AutomationAllowed(seeking) && !LeavesSomething(p)
    ensures AutomationTaken(p, p.WithAutomation(p.visit.automation.(disabled := true)), seeking, native)
  {
  }

  lemma SkippingIntro(p: Player, seeking: bool, native: Native)
    requires IntroDue(p, seeking, native)
    ensures AutomationTaken(p, p.IntroSkipped(native.seeks), seeking, native)
  {
  }

  /** The four ways in which automation may go. */
  lemma AutomatedCases(p: Player, seeking: bool, native: Native)
    requires p.AutomationAllowed(seeking)
    ensures var p', marked := p.Automated(seeking, native), p.visit.automation.(introSkipHandled := true);
      if !LeavesSomething(p) then p' == p.WithAutomation(p.visit.automation.(disabled := true))
      else if IntroDue(p, seeking, native) then p' == p.IntroSkipped(native.seeks)
      else if !p.visit.automation.introSkipHandled && 0 < p.setting.introSkipSeconds * 1000 <= p.visit.positionMs
      then p' == p.WithAutomation(marked).OutroChecked()
      else p' == p.OutroChecked()
  {
    ConflictLeavesNothing(p);
  }

  /** What automation never touches. */
  predicate SameBut(p: Player, p': Player) {
    && p'.setting == p.setting && p'.exit == p.exit && p'.visit.playback == p.visit.playback
    && p'.visit.durationMs == p.visit.durationMs
  }

  lemma OutroKeeps(p: Player)
    ensures SameBut(p, p.OutroChecked())
  {
  }

  lemma AutomationKeeps(p: Player, seeking: bool, native: Native)
    ensures SameBut(p, p.Automated(seeking, native))
  {
    if p.AutomationAllowed(seeking) {
      AutomatedCases(p, seeking, native);
      OutroKeeps(p);
      OutroKeeps(p.WithAutomation(p.visit.automation.(introSkipHandled := true)));
    }
  }

  lemma Automating(p: Player, seeking: bool, native: Native)
    ensures AutomationTaken(p, p.Automated(seeking, native), seeking, native)
  {
    if p.AutomationAllowed(seeking) {
      AutomatedCases(p, seeking, native);
      if !LeavesSomething(p) {
        Disabling(p, seeking, native);
      } else if IntroDue(p, seeking, native) {
        SkippingIntro(p, seeking, native);
      } else if !p.visit.automation.introSkipHandled && 0 < p.setting.introSkipSeconds * 1000 <= p.visit.positionMs {
        MarkingIntro(p, seeking, native);
      } else {
        CheckingOutro(p, seeking, native);
      }
    }
  }

  /** Reloading cancels what was loaded before; such a cancellation means nothing. */
  predicate Matters(p: Player, e: Event) {
    && p.open
    && (e.kind == Canceled ==>
          (!p.transition.interpolationChanging && !p.transition.episodeChanging) || p.exit.exiting)
  }

  /** The session closes exactly on a failure, on a cancellation that no change explains,
      and on the end of a file that nothing follows; while the exit is requested an event
      raises no transition flag, and while it stands none changes what is played. */
  predicate EventTaken(p: Player, p': Player, e: Event) {
    && (!Matters(p, e) ==> p' == p)
    && (Matters(p, e) ==>
          (p'.open <==>
             && e.kind != Canceled && e.kind != Failed
             && (e.kind == Finished ==>
                   p.transition.autoAdvancePending || (p.visit.card.isEpisode && p.setting.autoNext))))
    && (p.exit.exiting ==> NoFlagRises(p.transition, p'.transition) && p'.visit.card == p.visit.card)
    && (p.exit.exiting && p'.exit.exiting ==> p'.visit.playback == p.visit.playback)
  }

  /** Where an event leaves the playhead before anything is skipped: only positions that
      nobody is dragging count, and only durations that are known. */
  function Reported(p: Player, e: Event): Player {
    var moves := e.positionMs.Some? && !p.scrubbing && e.kind in {Position, Seeked};
    p.(visit := p.visit.(positionMs := if moves then e.positionMs.value else p.visit.positionMs,
                         durationMs := if e.durationMs.Some? && 0 < e.durationMs.value then e.durationMs.value
                                       else p.visit.durationMs))
  }

  /** The playhead follows the events, and only a position may set off an automatic action. */
  ghost predicate PlayheadTaken(p: Player, p': Player, e: Event, native: Native) {
    var r := Reported(p, e);
    Matters(p, e) ==>
      && p'.visit.durationMs == r.visit.durationMs
      && p'.visit.positionMs
         == (if e.kind == Position && IntroDue(r, e.seeking, native) then p.setting.introSkipSeconds * 1000
             else r.visit.positionMs)
      && p'.visit.automation.introSkips == p.visit.automation.introSkips
           + (if e.kind == Position && IntroDue(r, e.seeking, native) && native.seeks then 1 else 0)
      && p'.visit.automation.outroAdvances == p.visit.automation.outroAdvances
           + (if e.kind == Position && OutroDue(r, e.seeking, native) then 1 else 0)
      && (e.kind != Position && e.kind != Finished ==> p'.advancing == p.advancing)
  }

  /** What the events of playback itself show, unless the exit was requested. */
  predicate PlaybackTaken(p: Player, p': Player, e: Event) {
    var a, b := p.visit.playback, p'.visit.playback;
    Matters(p, e) && !p.exit.exiting ==>
      match e.kind
      case Started =>
        && b == Playback(a.loaded, true, b.playing, false)
        && !p'.transition.interpolationChanging && !p'.transition.episodeChanging
        && (!p.transition.interpolationChanging && !p.transition.episodeChanging ==> b.playing)
      case Paused =>
        && b == a.(playing := b.playing) && p'.transition == p.transition
        && (StaysHere(p) && !p.transition.interpolationChanging ==> !b.playing)
      case Buffering => b == a.(buffering := e.buffering) && p'.transition == p.transition
      case Finished =>
        && b == a
        && (p.transition.autoAdvancePending ==>
              p'.visit.automation.finishedDuringAdvance && p'.advancing == p.advancing)
        && (StaysHere(p) && p.visit.card.isEpisode && p.setting.autoNext ==>
              p'.visit.automation.finishedDuringAdvance && p'.advancing == Some(Ended))
      case _ => b == a
  }

  lemma TakingEvent(p: Player, e: Event, native: Native)
    ensures EventTaken(p, p.Handled(e, native), e)
  {
    ObservingKeepsOpen(p, e, native);
    if p.exit.exiting {
      ExitingEvent(p, e, native);
      QuietAutomation(p.Moved(e), e.seeking, native);
    }
  }

  lemma DispatchKeepsPlayhead(q: Player, e: Event)
    ensures var p' := q.Dispatched(e);
      && p'.visit.positionMs == q.visit.positionMs && p'.visit.durationMs == q.visit.durationMs
      && p'.visit.automation.introSkips == q.visit.automation.introSkips
      && p'.visit.automation.outroAdvances == q.visit.automation.outroAdvances
      && (e.kind != Finished ==> p'.advancing == q.advancing)
  {
  }

  /** What observing an event does to the playhead. */
  lemma ObservingMoves(p: Player, e: Event, native: Native)
    ensures var q, r := p.Observed(e, native), Reported(p, e);
      && q.visit.durationMs == r.visit.durationMs
      && q.visit.positionMs
         == (if e.kind == Position && IntroDue(r, e.seeking, native) then p.setting.introSkipSeconds * 1000
             else r.visit.positionMs)
      && q.visit.automation.introSkips == p.visit.automation.introSkips
           + (if e.kind == Position && IntroDue(r, e.seeking, native) && native.seeks then 1 else 0)
      && q.visit.automation.outroAdvances == p.visit.automation.outroAdvances
           + (if e.kind == Position && OutroDue(r, e.seeking, native) then 1 else 0)
      && (e.kind != Position ==> q.advancing == p.advancing)
  {
    assert p.Moved(e) == Reported(p, e);
    if e.kind == Position {
      Automating(p.Moved(e), e.seeking, native);
      AutomationKeeps(p.Moved(e), e.seeking, native);
    }
  }

  lemma MovingPlayhead(p: Player, e: Event, native: Native)
    ensures PlayheadTaken(p, p.Handled(e, native), e, native)
  {
    if Matters(p, e) {
      ObservingMoves(p, e, native);
      DispatchKeepsPlayhead(p.Observed(e, native), e);
    }
  }

  lemma ShowingPlayback(p: Player, e: Event, native: Native)
    ensures PlaybackTaken(p, p.Handled(e, native), e)
  {
    if Matters(p, e) && !p.exit.exiting {
      if e.kind == Position {
        AutomationKeeps(p.Moved(e), e.seeking, native);
      } else {
        assert p.Observed(e, native) == p.Moved(e);
        DispatchShows(p.Moved(e), e);
      }
    }
  }

  lemma DispatchShows(q: Player, e: Event)
    requires Matters(q, e) && !q.exit.exiting && e.kind != Position
    ensures PlaybackTaken(q, q.Dispatched(e), e)
  {
  }

  /** Observing neither closes the session nor says anything about its end. */
  lemma ObservingKeepsOpen(p: Player, e: Event, native: Native)
    ensures var q := p.Observed(e, native);
      && q.open == p.open && q.setting == p.setting && q.visit.card == p.visit.card
      && (e.kind == Finished ==> q.transition == p.transition)
  {
    if e.kind == Position {
      Automating(p.Moved(e), e.seeking, native);
      AutomationKeeps(p.Moved(e), e.seeking, native);
    }
  }

  // ---------------------------------------------------------------- playing through a change

  const PAUSED := Event(Paused, None, None, false, false)

  function Pauses(n: nat): seq<Step> {
    seq(n, _ => OnEvent(PAUSED, WORKING))
  }

  /** While something is loaded, what the user wants is remembered beside what is reported. */
  predicate Keeps(p: Player, playing: bool) {
    && p.Active() && p.visit.playback.playing == playing
    && (if p.transition.interpolationChanging then p.transition.interpolationResumePlaying == playing
        else if p.transition.episodeChanging then p.transition.episodeResumePlaying == playing
        else p.transition.autoAdvancePending && p.transition.autoAdvanceResumePlaying == playing)
  }

  lemma PauseKeeps(p: Player, playing: bool)
    requires Keeps(p, playing)
    ensures Keeps(Next(p, OnEvent(PAUSED, WORKING)), playing)
  {
  }

  lemma {:induction false} PausesKeep(p: Player, playing: bool, n: nat)
    requires Keeps(p, playing)
    ensures Keeps(Run(p, Pauses(n)), playing)
    ensures Run(p, Pauses(n)).transition == p.transition && Run(p, Pauses(n)).advancing == p.advancing
    decreases n
  {
    if n > 0 {
      PauseKeeps(p, playing);
      assert Pauses(n)[1..] == Pauses(n - 1);
      PausesKeep(Next(p, Pauses(n)[0]), playing, n - 1);
    }
  }

  /** The first frame of the new episode plays if the old one did, or if the switch was
      automatic, however often the player reports a pause while the episode is loaded. */
  lemma PlayingSurvivesSwitch(p: Player, episode: Card, automatic: bool, trigger: Trigger, n: nat)
    requires MayFollow(p, episode) && !p.transition.interpolationChanging
    ensures var loading := Run(p.Switched(episode, automatic, trigger), Pauses(n));
      Next(loading, OnEvent(FIRST_FRAME, WORKING)).visit.playback.playing
      == (automatic || p.visit.playback.playing)
  {
    PausesKeep(p.Switched(episode, automatic, trigger), automatic || p.visit.playback.playing, n);
  }

  /** The same of the first frame after a change of the interpolation model. */
  lemma PlayingSurvivesModelChange(p: Player, n: nat)
    requires MayChangeModel(p)
    ensures var loading := Run(Next(p, ChangeInterpolation(true)), Pauses(n));
      Next(loading, OnEvent(FIRST_FRAME, WORKING)).visit.playback.playing == p.visit.playback.playing
  {
    PausesKeep(Next(p, ChangeInterpolation(true)), p.visit.playback.playing, n);
  }

  /** And while the list of episodes is awaited. */
  lemma PlayingSurvivesAdvance(p: Player, trigger: Trigger, n: nat)
    requires StaysHere(p) && p.setting.autoNext && !p.transition.interpolationChanging
    ensures Run(p.Advanced(trigger), Pauses(n)).visit.playback.playing == p.visit.playback.playing
  {
    PausesKeep(p.Advanced(trigger), p.visit.playback.playing, n);
  }

  // ---------------------------------------------------------------- loads, model changes and controls

  /** A session opens with nothing shown, loaded, changing or awaited but its first load, and
      plays from its first frame on; its intro counts as handled exactly if there is none
      or the start lies behind it. */
  lemma OpensClean(card: Card, startMs: int, setting: Setting)
    ensures var p := Opened(card, startMs, setting);
      && StaysHere(p) && p.loading && !p.scrubbing && !p.trackChanging && !p.transition.interpolationChanging
      && p.switches == [] && p.advancing.None? && p.interpolations == 0 && p.exit == Exit(false, false, 0)
      && p.visit.card == card && p.visit.positionMs == startMs && p.visit.durationMs == card.durationMs
      && p.visit.playback == Playback(false, false, true, false)
      && Next(p, OnEvent(FIRST_FRAME, WORKING)).visit.playback == Playback(false, true, true, false)
      && p.visit.automation == Automation(p.visit.automation.introSkipHandled, false, false, false, 0, 0)
      && (p.visit.automation.introSkipHandled <==>
            setting.introSkipSeconds == 0 || setting.introSkipSeconds * 1000 <= startMs)
  {
  }

  /** The first load is answered once; a failure closes the session unless its stop was sent. */
  lemma LoadIsAnsweredOnce(p: Player, ok: bool, again: bool)
    requires p.open && p.loading && ExitInv(p.exit)
    ensures var p' := Next(p, AnswerLoad(ok));
      && Next(p', AnswerLoad(again)) == p'
      && (p'.open <==> ok || p.exit.stopSent)
      && p'.visit == (if ok then p.visit.(playback := p.visit.playback.(loaded := true)) else p.visit)
  {
  }

  predicate MayChangeModel(p: Player) {
    && p.open && !p.exit.exiting && p.visit.playback.started && p.visit.playback.loaded
    && !p.transition.interpolationChanging
  }

  /** Another model is loaded only during playback, one at a time; an answer that fails
      leaves the session as it was, up to a flag that only such a change reads. */
  lemma FailedModelChangeRestores(p: Player, different: bool)
    ensures var changed := Next(p, ChangeInterpolation(different));
      if MayChangeModel(p) && different then
        && changed.transition.interpolationChanging
        && Next(changed, AnswerInterpolation(false))
           == p.(transition := p.transition.(interpolationResumePlaying := p.visit.playback.playing))
        && Next(changed, AnswerInterpolation(true)) == changed.(interpolations := p.interpolations)
      else changed == p
  {
  }

  predicate WantsToPlay(p: Player) {
    if p.transition.interpolationChanging then p.transition.interpolationResumePlaying else p.visit.playback.playing
  }

  /** The play button turns what the user wants, also while a model is loaded. */
  lemma ToggleTurns(p: Player, native: Native)
    ensures var p' := Next(p, TogglePlayback(native));
      && WantsToPlay(p') == (if p.open && !p.exit.exiting && native.present then !WantsToPlay(p) else WantsToPlay(p))
      && (p' != p ==> p'.visit.playback.playing == WantsToPlay(p'))
      && p'.visit.positionMs == p.visit.positionMs && p'.visit.automation == p.visit.automation
  {
  }

  /** What the user wants survives a change that fails, even if it was turned meanwhile. */
  lemma FailedModelChangeKeepsWish(p: Player)
    requires p.open && !p.exit.exiting && p.transition.interpolationChanging && p.interpolations > 0
    ensures var failed := Next(p, AnswerInterpolation(false));
      !failed.transition.interpolationChanging && failed.visit.playback.playing == WantsToPlay(p)
  {
  }

  /** Dragging holds the position against all events; letting go moves it, unless the exit
      was requested or there is nothing to seek with. */
  lemma SeekEndsDragging(p: Player, targetMs: int, native: Native, e: Event)
    requires p.open
    ensures var p' := Next(p, CommitSeek(targetMs, native));
      && !p'.scrubbing
      && p' == p.(scrubbing := false, visit := p.visit.(positionMs := p'.visit.positionMs))
      && p'.visit.positionMs
         == (if !p.exit.exiting && native.present then targetMs else p.visit.positionMs)
    ensures !p.exit.exiting ==>
      Reported(Next(p, PreviewSeek), e).visit.positionMs == p.visit.positionMs
    ensures p.exit.exiting ==> Next(p, PreviewSeek) == p
  {
  }

  /** New settings of a series start its automatic actions anew, as if the episode had been
      opened where it is. */
  lemma SettingStartsAnew(p: Player, s: Setting)
    ensures var p' := Next(p, ChangeSetting(s));
      if p.open && p.visit.card.isEpisode then
        && p'.setting == s
        && p'.visit.automation == Opened(p.visit.card, p.visit.positionMs, s).visit.automation
             .(finishedDuringAdvance := p.visit.automation.finishedDuringAdvance)
        && p' == p.(setting := s, visit := p.visit.(automation := p'.visit.automation))
      else p' == p
  {
  }

  /** No episode is chosen while a track is changed, and a chosen one plays exactly if the
      one before did. */
  lemma TrackChangeHoldsEpisode(p: Player, episode: Card)
    requires p.open && !p.exit.exiting
    ensures var changing := Next(p, ChangeTrack(true));
      && Next(changing, ChooseEpisode(episode)) == changing
      && Next(changing, ChangeTrack(false)) == p.(trackChanging := false)
    ensures Next(p.(exit := p.exit.(exiting := true)), ChangeTrack(true)) == p.(exit := p.exit.(exiting := true))
    ensures p.visit.playback.playing ==> Next(p, ChooseEpisode(episode)).visit.playback.playing
    ensures Next(p, ChooseEpisode(episode)) != p && !p.visit.playback.playing ==>
      !Next(p, ChooseEpisode(episode)).visit.playback.playing
  {
  }

  // ---------------------------------------------------------------- after the exit was requested

  predicate NoFlagRises(t: Transition, t': Transition) {
    && (t'.episodeChanging ==> t.episodeChanging)
    && (t'.autoAdvancePending ==> t.autoAdvancePending)
    && (t'.interpolationChanging ==> t.interpolationChanging)
  }

  lemma QuietAutomation(p: Player, seeking: bool, native: Native)
    requires p.exit.exiting
    ensures p.Automated(seeking, native) == p
  {
  }

  lemma ExitingObserved(p: Player, e: Event, native: Native)
    requires p.exit.exiting
    ensures var q := p.Observed(e, native);
      q.transition == p.transition && (e.kind != Started ==> q.exit == p.exit)
  {
    QuietAutomation(p.Moved(e), e.seeking, native);
  }

  lemma ExitingEvent(p: Player, e: Event, native: Native)
    requires p.exit.exiting
    ensures NoFlagRises(p.transition, p.Handled(e, native).transition)
  {
    if !p.Ignores(e) {
      ExitingObserved(p, e, native);
      ExitingDispatched(p.Observed(e, native), e);
    }
  }

  lemma ExitingDispatched(q: Player, e: Event)
    requires e.kind == Finished ==> q.exit.exiting
    ensures NoFlagRises(q.transition, q.Dispatched(e).transition)
  {
  }

  /** While the exit is requested no step raises a transition flag or starts a switch. */
  lemma ExitingStep(p: Player, step: Step)
    requires p.exit.exiting
    ensures NoFlagRises(p.transition, Next(p, step).transition)
  {
    match step
    case OnEvent(e, native) => ExitingEvent(p, e, native);
    case _ =>
  }

  predicate StaysExiting(p: Player, steps: seq<Step>)
    decreases |steps|
  {
    p.exit.exiting && (steps == [] || StaysExiting(Next(p, steps[0]), steps[1..]))
  }

  lemma {:induction false} NoFlagRisesAfterExit(p: Player, steps: seq<Step>)
    requires StaysExiting(p, steps)
    ensures NoFlagRises(p.transition, Run(p, steps).transition)
    decreases |steps|
  {
    if steps != [] {
      ExitingStep(p, steps[0]);
      NoFlagRisesAfterExit(Next(p, steps[0]), steps[1..]);
    }
  }

  /** The end of the file closes the session exactly if no advance is pending and the
      episode is not to be followed by the next one, whether or not exit was requested. */
  lemma FinishedClosesIff(p: Player, e: Event, native: Native)
    requires p.open && e.kind == Finished
    ensures p.Handled(e, native).open <==>
              p.transition.autoAdvancePending || (p.visit.card.isEpisode && p.setting.autoNext)
  {
    TakingEvent(p, e, native);
  }

  /** A concrete run: the end of the file, after the exit was requested, neither advances
      nor closes the session. */
  lemma FinishedAfterExitStaysOpen(card: Card, setting: Setting)
    requires card.isEpisode && setting.autoNext
    ensures var p := Run(Opened(card, 0, setting), [RequestExit(WORKING), OnEvent(END, WORKING)]);
      p.open && p.exit.exiting && p.advancing.None? && !p.exit.stopSent
  {
    var p0 := Opened(card, 0, setting);
    var p1 := Next(p0, RequestExit(WORKING));
    var p2 := Next(p1, OnEvent(END, WORKING));
    TwoSteps(p0, RequestExit(WORKING), OnEvent(END, WORKING));
  }

  const WORKING := Native(true, true, true)
  const END := Event(Finished, None, None, false, false)
  const FIRST_FRAME := Event(Started, None, None, false, false)

  lemma TwoSteps(p: Player, a: Step, b: Step)
    ensures Run(p, [a, b]) == Next(Next(p, a), b)
  {
    assert [a, b][1..] == [b];
    assert Run(Next(p, a), [b]) == Run(Next(Next(p, a), b), []);
  }

  // ---------------------------------------------------------------- what a failed switch undoes

  /** A manual switch whose load fails at once leaves the session as it was, up to the
      flag that only a changing episode reads. */
  lemma FailedSwitchRestores(p: Player, episode: Card)
    requires p.MaySwitch(episode)
    ensures var switched := p.Switched(episode, false, Manual);
      switched.SwitchAnswered(|p.switches|, false)
      == p.(transition := p.transition.(episodeResumePlaying := p.visit.playback.playing))
  {
    var switched := p.Switched(episode, false, Manual);
    assert switched.switches[..|p.switches|] + switched.switches[|p.switches| + 1..] == p.switches;
  }

  // ---------------------------------------------------------------- an advance that never ends

  /** Marked as pending, although nothing will answer it. */
  predicate Orphaned(p: Player) {
    p.transition.autoAdvancePending && p.advancing.None?
  }

  lemma SwitchKeepsPending(p: Player, episode: Card, automatic: bool, trigger: Trigger)
    ensures p.Switched(episode, automatic, trigger).transition.autoAdvancePending == p.transition.autoAdvancePending
    ensures p.Switched(episode, automatic, trigger).advancing == p.advancing
  {
  }

  /** The list of episodes is lost exactly if it comes while the exit is requested. */
  lemma AdvanceOrphanedIffExiting(p: Player, next: Option<Card>)
    requires Inv(p) && p.open && p.advancing.Some?
    ensures Orphaned(p.AdvanceAnswered(next)) <==> p.exit.exiting
  {
    if next.Some? {
      SwitchKeepsPending(p.AdvanceOver(), next.value, true, p.advancing.value);
    }
  }

  lemma OrphanIgnoresAutomation(p: Player, seeking: bool, native: Native)
    requires Orphaned(p)
    ensures p.Automated(seeking, native) == p
  {
  }

  lemma OrphanedEvent(p: Player, e: Event, native: Native)
    requires Orphaned(p)
    ensures Orphaned(p.Handled(e, native))
  {
    OrphanIgnoresAutomation(p.Moved(e), e.seeking, native);
    if !p.Ignores(e) {
      var q := p.Observed(e, native);
      assert q.transition == p.transition && q.advancing == p.advancing;
    }
  }

  lemma OrphanedSwitch(p: Player, i: nat, ok: bool)
    requires Orphaned(p)
    ensures Orphaned(p.SwitchAnswered(i, ok))
  {
  }

  lemma OrphanedLoad(p: Player, ok: bool)
    requires Orphaned(p)
    ensures Orphaned(p.LoadAnswered(ok))
  {
  }

  lemma OrphanedInterpolation(p: Player, flag: bool)
    requires Orphaned(p)
    ensures Orphaned(p.InterpolationChanged(flag)) && Orphaned(p.InterpolationAnswered(flag))
  {
  }

  lemma OrphanedControls(p: Player, native: Native)
    requires Orphaned(p)
    ensures Orphaned(p.ExitRequested(native)) && Orphaned(p.PlaybackToggled(native))
  {
  }

  lemma OrphanedStep(p: Player, step: Step)
    requires Orphaned(p)
    ensures Orphaned(Next(p, step))
  {
    match step
    case OnEvent(e, native) => OrphanedEvent(p, e, native);
    case ChooseEpisode(episode) => SwitchKeepsPending(p, episode, false, Manual);
    case AnswerSwitch(i, ok) => OrphanedSwitch(p, i, ok);
    case AnswerLoad(ok) => OrphanedLoad(p, ok);
    case ChangeInterpolation(different) => OrphanedInterpolation(p, different);
    case AnswerInterpolation(ok) => OrphanedInterpolation(p, ok);
    case RequestExit(native) => OrphanedControls(p, native);
    case TogglePlayback(native) => OrphanedControls(p, native);
    case _ =>
  }

  /** If the exit then fails, the session can neither advance nor switch, nor close at
      the end of the file: whatever happens, the advance stays pending for ever. */
  lemma {:induction false} OrphanedForEver(p: Player, steps: seq<Step>, e: Event, native: Native)
    requires Orphaned(p) && e.kind == Finished
    ensures Orphaned(Run(p, steps)) && Settled(Run(p, steps))
    ensures Run(p, steps + [OnEvent(e, native)]).open == Run(p, steps).open
    decreases |steps|
  {
    RunGrows(p, steps, OnEvent(e, native));
    if steps == [] {
      TakingEvent(p, e, native);
    } else {
      OrphanedStep(p, steps[0]);
      OrphanedForEver(Next(p, steps[0]), steps[1..], e, native);
      RunGrows(Next(p, steps[0]), steps[1..], OnEvent(e, native));
    }
  }

  /** A concrete run: the file ends, the exit is requested before the first frame, the
      list of episodes comes, and then the stop fails. The session is active again, and
      its advance is orphaned. */
  lemma OrphanedByFailedExit(card: Card, setting: Setting, next: Option<Card>)
    requires card.isEpisode && setting.autoNext
    ensures var p := Run(Opened(card, 0, setting), [OnEvent(END, WORKING), RequestExit(WORKING),
                         AnswerEpisodes(next), OnEvent(FIRST_FRAME, WORKING.(stops := false))]);
      Orphaned(p) && p.Active() && p.visit.playback.started
  {
    var broken := WORKING.(stops := false);
    var p0 := Opened(card, 0, setting);
    var p1 := Next(p0, OnEvent(END, WORKING));
    var p2 := Next(p1, RequestExit(WORKING));
    var p3 := Next(p2, AnswerEpisodes(next));
    var p4 := Next(p3, OnEvent(FIRST_FRAME, broken));
    TwoSteps(p0, OnEvent(END, WORKING), RequestExit(WORKING));
    TwoSteps(p2, AnswerEpisodes(next), OnEvent(FIRST_FRAME, broken));
    var steps := [OnEvent(END, WORKING), RequestExit(WORKING), AnswerEpisodes(next), OnEvent(FIRST_FRAME, broken)];
    assert steps[1..][1..] == [AnswerEpisodes(next), OnEvent(FIRST_FRAME, broken)];
    assert Run(p0, steps) == Run(p1, steps[1..]) == Run(p2, steps[1..][1..]);
  }
}
