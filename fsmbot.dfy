/**
 * `bot.py`: the controller with a finite-state machine per user. `/start`
 * moves the user to `choosing_language`, a language button stores `lang` and
 * moves them to `ready`, and only in `ready` is a text message treated as a
 * link. The state and the stored `lang` live in the FSM storage; the bot
 * holds them in two maps keyed by user.
 */
module FsmBot {
  import opened Wrappers
  import opened Text
  import opened FileSystem
  import opened Telegram
  import opened Translations
  import opened Mp3Job
  import opened Conversation

  /** `States.choosing_language` and `States.ready`; a user with no state has no entry. */
  datatype Phase = ChoosingLanguage | Ready

  /** Everything the handlers read or change: FSM states, FSM data (`lang`),
      the filesystem, and the outbound log. */
  datatype World = World(phase: map<UserId, Phase>, lang: map<UserId, string>, fs: Fs, sent: seq<Action>)

  function Initial(fs: Fs): World {
    World(map[], map[], fs, [])
  }

  function IsReady(w: World, u: UserId): bool {
    u in w.phase && w.phase[u] == Ready
  }

  /** `start`: in any state. */
  function OnStart(w: World, u: UserId): World {
    w.(phase := w.phase[u := ChoosingLanguage], sent := w.sent + [Prompt(u)])
  }

  /** `set_language`: for a payload the `lang_` filter let through, in any state. */
  function OnLanguage(w: World, u: UserId, data: string): World
    requires StartsWith(data, "lang_")
  {
    var code := ParseLang(data);
    w.(lang := w.lang[u := code], phase := w.phase[u := Ready],
       sent := w.sent + Confirmation(Fsm, u, code))
  }

  /** `process_link`: the handler the `States.ready` filter routes to. */
  function OnLink(w: World, u: UserId, text: Option<string>, inp: Inputs): World
    requires IsReady(w, u)
  {
    var code := if u in w.lang then w.lang[u] else DefaultCode;
    var turn := LinkTurn(Fsm, w.fs, u, code, text, inp);
    w.(fs := turn.fs, sent := w.sent + turn.replies)
  }

  /** The dispatcher: handlers are tried in registration order; an update no
      filter accepts is dropped. */
  function Step(w: World, e: Event): World {
    match e
    case Start(u) => OnStart(w, u)
    case Callback(u, data) => if StartsWith(data, "lang_") then OnLanguage(w, u, data) else w
    case Message(u, text, inp) => if IsReady(w, u) then OnLink(w, u, text, inp) else w
  }

  function Run(w: World, events: seq<Event>): World
    decreases |events|
  {
    if events == [] then w else Run(Step(w, events[0]), events[1..])
  }

  /** Only a language button sets the `ready` state, and it stores `lang`
      first, so a user in `ready` always has a stored language. */
  ghost predicate ReadyHasLanguage(w: World) {
    forall u :: IsReady(w, u) ==> u in w.lang
  }

  lemma StepKeepsReadyHasLanguage(w: World, e: Event)
    requires ReadyHasLanguage(w)
    ensures ReadyHasLanguage(Step(w, e))
  {
  }

  lemma {:induction false} RunKeepsReadyHasLanguage(w: World, events: seq<Event>)
    requires ReadyHasLanguage(w)
    ensures ReadyHasLanguage(Run(w, events))
    decreases |events|
  {
    if events != [] {
      StepKeepsReadyHasLanguage(w, events[0]);
      RunKeepsReadyHasLanguage(Step(w, events[0]), events[1..]);
    }
  }

  /** In every reachable world the `"en"` default of `process_link` is never
      consulted: a user in `ready` has a stored language. */
  lemma DefaultNeverUsed(fs: Fs, events: seq<Event>, u: UserId)
    ensures var w := Run(Initial(fs), events);
      IsReady(w, u) ==> u in w.lang
  {
    RunKeepsReadyHasLanguage(Initial(fs), events);
  }

  /** The outbound log only grows: handlers append, never retract. */
  lemma {:induction false} RunOnlyAppends(w: World, events: seq<Event>)
    ensures |w.sent| <= |Run(w, events).sent| && Run(w, events).sent[..|w.sent|] == w.sent
    decreases |events|
  {
    if events != [] {
      var w' := Step(w, events[0]);
      assert |w.sent| <= |w'.sent| && w'.sent[..|w.sent|] == w.sent;
      RunOnlyAppends(w', events[1..]);
    }
  }

  /** A step for one user leaves every other user's state and language as they were. */
  lemma StepIsolatesUsers(w: World, e: Event, other: UserId)
    requires other != e.user
    ensures var w' := Step(w, e);
      (other in w'.phase <==> other in w.phase) && (other in w.phase ==> w'.phase[other] == w.phase[other])
      && (other in w'.lang <==> other in w.lang) && (other in w.lang ==> w'.lang[other] == w.lang[other])
  {
  }

  /** `/start` is accepted in any state: it moves to `choosing_language`,
      keeps a stored language, touches no file, and sends the English prompt
      with the three language buttons. */
  lemma StartFromAnyState(w: World, u: UserId)
    ensures var w' := Step(w, Start(u));
      w'.phase == w.phase[u := ChoosingLanguage] && w'.lang == w.lang && w'.fs == w.fs
      && w'.sent == w.sent + [Reply(u, "Please choose your language.", StartKeyboard)]
  {
  }

  /** A button press is handled in any state: `lang` is stored and the state
      becomes `ready`; then the keyboard is cleared, the "send a link" prompt
      goes out in the chosen language, and the press is acknowledged. */
  lemma LanguageFromAnyState(w: World, u: UserId, l: Lang)
    ensures var w' := Step(w, Callback(u, LangButton(l).data));
      w'.lang == w.lang[u := Code(l)] && w'.phase == w.phase[u := Ready] && w'.fs == w.fs
      && w'.sent == w.sent + [ClearKeyboard(u), Reply(u, Translate(Fsm, SendLink, l), []), AnswerCallback(u)]
  {
    ButtonSelectsItsLanguage(l);
    ParsePayload(Code(l));
  }

  /** A payload with an unknown code is still stored and still moves the user
      to `ready`, but the `send_link` lookup raises after the keyboard is
      cleared: no prompt and no acknowledgement. */
  lemma UnknownLanguageStopsAfterClearing(w: World, u: UserId, code: string)
    requires '_' !in code && LangOf(code).None?
    ensures var w' := Step(w, Callback(u, "lang_" + code));
      w'.lang == w.lang[u := code] && w'.phase == w.phase[u := Ready]
      && w'.sent == w.sent + [ClearKeyboard(u)]
  {
    ParsePayload(code);
  }

  /** Outside `ready` a message gets no reply and changes nothing. */
  lemma MessageIgnoredUnlessReady(w: World, u: UserId, text: Option<string>, inp: Inputs)
    requires !IsReady(w, u)
    ensures Step(w, Message(u, text, inp)) == w
  {
  }

  /** In `ready`, a text that is not a link gets only "Invalid link."; no
      directory is made and the state stays `ready`. */
  lemma InvalidLinkInReady(w: World, u: UserId, t: string, inp: Inputs)
    requires IsReady(w, u) && !IsLink(t)
    ensures Step(w, Message(u, Some(t), inp)) == w.(sent := w.sent + [Reply(u, "Invalid link.", [])])
  {
  }

  /** In `ready`, an accepted link is answered in the stored language and
      the user stays in `ready`. */
  lemma LinkInReady(w: World, u: UserId, t: string, inp: Inputs)
    requires IsReady(w, u) && u in w.lang && IsLink(t) && LangOf(w.lang[u]).Some?
    ensures var w' := Step(w, Message(u, Some(t), inp));
      var turn := Report(Fsm, w.fs, u, LangOf(w.lang[u]).value, inp);
      w'.phase == w.phase && w'.lang == w.lang && w'.fs == turn.fs && w'.sent == w.sent + turn.replies
  {
  }

  /** A user's stored `lang` is written only by their own language button:
      a run with no `lang_` callback from `u` leaves `u`'s entry as it was,
      whatever state `u` is in and whatever `u` sends. */
  lemma {:induction false} OnlyOwnCallbackSetsLang(w: World, events: seq<Event>, u: UserId)
    requires forall i :: 0 <= i < |events| ==>
      !(events[i].Callback? && events[i].user == u && StartsWith(events[i].data, "lang_"))
    ensures var w' := Run(w, events);
      (u in w'.lang <==> u in w.lang) && (u in w.lang ==> w'.lang[u] == w.lang[u])
    decreases |events|
  {
    if events != [] {
      var w1 := Step(w, events[0]);
      assert (u in w1.lang <==> u in w.lang) && (u in w.lang ==> w1.lang[u] == w.lang[u]);
      assert forall i :: 0 <= i < |events[1..]| ==> events[1..][i] == events[i + 1];
      OnlyOwnCallbackSetsLang(w1, events[1..], u);
    }
  }

  /** After choosing a language, the stored `lang` stays that language until
      the same user presses another language button. */
  lemma ChosenLanguagePersists(w: World, u: UserId, l: Lang, events: seq<Event>)
    requires forall i :: 0 <= i < |events| ==>
      !(events[i].Callback? && events[i].user == u && StartsWith(events[i].data, "lang_"))
    ensures var w' := Run(Step(w, Callback(u, LangButton(l).data)), events);
      u in w'.lang && w'.lang[u] == Code(l)
  {
    LanguageFromAnyState(w, u, l);
    OnlyOwnCallbackSetsLang(Step(w, Callback(u, LangButton(l).data)), events, u);
  }

  /** A conversation from scratch: `/start`, a language button, then a link.
      The user ends in `ready` with that language stored, and the bot has sent
      the prompt, the confirmation, and the link's report in that language. */
  lemma {:induction false} FirstDownload(fs: Fs, u: UserId, l: Lang, t: string, inp: Inputs)
    requires IsLink(t)
    ensures var w := Run(Initial(fs), [Start(u), Callback(u, LangButton(l).data), Message(u, Some(t), inp)]);
      var turn := Report(Fsm, fs, u, l, inp);
      w.phase == map[u := Ready] && w.lang == map[u := Code(l)] && w.fs == turn.fs
      && w.sent == [Prompt(u), ClearKeyboard(u), Reply(u, Translate(Fsm, SendLink, l), []), AnswerCallback(u)]
                   + turn.replies
  {
    var events := [Start(u), Callback(u, LangButton(l).data), Message(u, Some(t), inp)];
    var w0 := Initial(fs);
    var w1 := Step(w0, events[0]);
    assert w1 == World(map[u := ChoosingLanguage], map[], fs, [Prompt(u)]);
    var w2 := Step(w1, events[1]);
    LanguageFromAnyState(w1, u, l);
    assert w2 == World(map[u := Ready], map[u := Code(l)], fs,
                       [Prompt(u), ClearKeyboard(u), Reply(u, Translate(Fsm, SendLink, l), []), AnswerCallback(u)]);
    var w3 := Step(w2, events[2]);
    LangOfCode(l);
    LinkInReady(w2, u, t, inp);
    assert Run(w3, events[3..]) == w3;
    assert Run(w2, events[2..]) == w3;
    assert Run(w1, events[1..]) == w3;
  }

  /** The `bot.py` process: its FSM storage, the disk and the outbox. */
  class Bot {
    var phase: map<UserId, Phase>
    var lang: map<UserId, string>
    const disk: Disk
    const out: Outbox

    function Snapshot(): World
      reads this, disk, out
    {
      World(phase, lang, disk.Value(), out.sent)
    }

    ghost predicate Valid()
      reads this, disk, out
    {
      ReadyHasLanguage(Snapshot())
    }

    constructor (disk: Disk, out: Outbox)
      requires out.sent == []
      ensures this.disk == disk && this.out == out
      ensures Snapshot() == Initial(disk.Value()) && Valid()
    {
      phase := map[];
      lang := map[];
      this.disk := disk;
      this.out := out;
    }

    method Start(u: UserId)
      requires Valid()
      modifies this, out
      ensures Valid()
      ensures Snapshot() == OnStart(old(Snapshot()), u)
    {
      phase := phase[u := ChoosingLanguage];
      out.Send(Prompt(u));
    }

    method SetLanguage(u: UserId, data: string)
      requires Valid() && StartsWith(data, "lang_")
      modifies this, out
      ensures Valid()
      ensures Snapshot() == OnLanguage(old(Snapshot()), u, data)
    {
      var code := ParseLang(data);
      lang := lang[u := code];
      phase := phase[u := Ready];
      Confirm(Fsm, out, u, code);
    }

    method ProcessLink(u: UserId, text: Option<string>, inp: Inputs)
      requires Valid() && IsReady(Snapshot(), u)
      modifies disk, out
      ensures Valid()
      ensures Snapshot() == OnLink(old(Snapshot()), u, text, inp)
    {
      var code := if u in lang then lang[u] else DefaultCode;
      AnswerLink(Fsm, disk, out, u, code, text, inp);
    }

    method Handle(e: Event)
      requires Valid()
      modifies this, disk, out
      ensures Valid()
      ensures Snapshot() == Step(old(Snapshot()), e)
    {
      match e {
        case Start(u) =>
          Start(u);
        case Callback(u, data) =>
          if StartsWith(data, "lang_") {
            SetLanguage(u, data);
          }
        case Message(u, text, inp) =>
          if u in phase && phase[u] == Ready {
            ProcessLink(u, text, inp);
          }
      }
    }
  }
}
