/**
 * `bot_clean.py`: the controller without a state machine. A language button
 * writes the process-wide `user_languages` dictionary, and every text
 * message is treated as a link attempt, answered in the stored language or
 * in English when the user never chose one.
 */
module CleanBot {
  import opened Wrappers
  import opened Text
  import opened FileSystem
  import opened Telegram
  import opened Translations
  import opened Mp3Job
  import opened Conversation

  /** `user_languages`, the filesystem and the outbound log. */
  datatype World = World(langs: map<UserId, string>, fs: Fs, sent: seq<Action>)

  function Initial(fs: Fs): World {
    World(map[], fs, [])
  }

  /** `user_languages.get(user_id, "en")`. */
  function LanguageOf(w: World, u: UserId): (code: string)
    ensures u in w.langs ==> code == w.langs[u]
    ensures u !in w.langs ==> code == "en"
  {
    if u in w.langs then w.langs[u] else DefaultCode
  }

  /** `start`: sends the prompt and nothing else; a stored language is kept. */
  function OnStart(w: World, u: UserId): World {
    w.(sent := w.sent + [Prompt(u)])
  }

  /** `choose_lang`, for a payload the `lang_` filter let through. */
  function OnLanguage(w: World, u: UserId, data: string): World
    requires StartsWith(data, "lang_")
  {
    var code := ParseLang(data);
    w.(langs := w.langs[u := code], sent := w.sent + Confirmation(Clean, u, code))
  }

  /** `handle_link`: every message, with no gating. */
  function OnMessage(w: World, u: UserId, text: Option<string>, inp: Inputs): World {
    var turn := LinkTurn(Clean, w.fs, u, LanguageOf(w, u), text, inp);
    w.(fs := turn.fs, sent := w.sent + turn.replies)
  }

  function Step(w: World, e: Event): World {
    match e
    case Start(u) => OnStart(w, u)
    case Callback(u, data) => if StartsWith(data, "lang_") then OnLanguage(w, u, data) else w
    case Message(u, text, inp) => OnMessage(w, u, text, inp)
  }

  function Run(w: World, events: seq<Event>): World
    decreases |events|
  {
    if events == [] then w else Run(Step(w, events[0]), events[1..])
  }

  /** `/start` never forgets a chosen language: it only sends the prompt. */
  lemma StartKeepsLanguage(w: World, u: UserId)
    ensures var w' := Step(w, Start(u));
      w'.langs == w.langs && w'.fs == w.fs
      && w'.sent == w.sent + [Reply(u, "Please choose your language.", StartKeyboard)]
  {
  }

  /** A button press records exactly this user's language: the dictionary
      gains or updates one key, every other entry is untouched, and the
      "send a link" prompt goes out in the chosen language. */
  lemma ChooseLangOnlyThisUser(w: World, u: UserId, l: Lang)
    ensures var w' := Step(w, Callback(u, LangButton(l).data));
      w'.langs.Keys == w.langs.Keys + {u} && w'.langs[u] == Code(l)
      && (forall o :: o in w.langs && o != u ==> w'.langs[o] == w.langs[o])
      && w'.fs == w.fs
      && w'.sent == w.sent + [ClearKeyboard(u), Reply(u, Translate(Clean, SendLink, l), []), AnswerCallback(u)]
  {
    ButtonSelectsItsLanguage(l);
    ParsePayload(Code(l));
  }

  /** A payload with an unknown code is still stored; the reply lookup then
      raises after the keyboard is cleared. */
  lemma UnknownLanguageStored(w: World, u: UserId, code: string)
    requires '_' !in code && LangOf(code).None?
    ensures var w' := Step(w, Callback(u, "lang_" + code));
      w'.langs == w.langs[u := code] && w'.sent == w.sent + [ClearKeyboard(u)]
  {
    ParsePayload(code);
  }

  /** With no gating, a user who never pressed a button is answered in
      English: a link gets the English report, anything else "❌ Invalid link.". */
  lemma NoGatingDefaultEnglish(w: World, u: UserId, t: string, inp: Inputs)
    requires u !in w.langs
    ensures var w' := Step(w, Message(u, Some(t), inp));
      w'.langs == w.langs
      && (IsLink(t) ==> var turn := Report(Clean, w.fs, u, En, inp);
                         w'.fs == turn.fs && w'.sent == w.sent + turn.replies)
      && (!IsLink(t) ==> w'.fs == w.fs && w'.sent == w.sent + [Reply(u, "❌ Invalid link.", [])])
  {
    LangOfCode(En);
  }

  /** A message never changes the language table. */
  lemma MessageKeepsLanguages(w: World, u: UserId, text: Option<string>, inp: Inputs)
    ensures Step(w, Message(u, text, inp)).langs == w.langs
  {
  }

  /** The outbound log only grows. */
  lemma {:induction false} RunOnlyAppends(w: World, events: seq<Event>)
    ensures |w.sent| <= |Run(w, events).sent| && Run(w, events).sent[..|w.sent|] == w.sent
    decreases |events|
  {
    if events != [] {
      var w' := Step(w, events[0]);
      assert |w.sent| <= |w'.sent| && w'.sent[..|w.sent|] == w.sent;
      RunOnlyAppends(w', events[1..]);
    }
  }

  /** A user's entry is written only by their own button presses: a run with
      no `lang_` callback from `u` leaves `u`'s entry as it was. */
  lemma {:induction false} OnlyOwnCallbackSetsLanguage(w: World, events: seq<Event>, u: UserId)
    requires forall i :: 0 <= i < |events| ==>
      !(events[i].Callback? && events[i].user == u && StartsWith(events[i].data, "lang_"))
    ensures var w' := Run(w, events);
      (u in w'.langs <==> u in w.langs) && (u in w.langs ==> w'.langs[u] == w.langs[u])
    decreases |events|
  {
    if events != [] {
      var w1 := Step(w, events[0]);
      assert (u in w1.langs <==> u in w.langs) && (u in w.langs ==> w1.langs[u] == w.langs[u]);
      assert forall i :: 0 <= i < |events[1..]| ==> events[1..][i] == events[i + 1];
      OnlyOwnCallbackSetsLanguage(w1, events[1..], u);
    }
  }

  /** Once a user presses a language button, that language is the one their
      messages are answered in, until they press another one; other users'
      updates never change it. */
  lemma ChosenLanguagePersists(w: World, u: UserId, l: Lang, events: seq<Event>)
    requires forall i :: 0 <= i < |events| ==>
      !(events[i].Callback? && events[i].user == u && StartsWith(events[i].data, "lang_"))
    ensures LanguageOf(Run(Step(w, Callback(u, LangButton(l).data)), events), u) == Code(l)
  {
    ChooseLangOnlyThisUser(w, u, l);
    OnlyOwnCallbackSetsLanguage(Step(w, Callback(u, LangButton(l).data)), events, u);
  }

  /** The `bot_clean.py` process: `user_languages`, the disk and the outbox. */
  class Bot {
    var userLanguages: map<UserId, string>
    const disk: Disk
    const out: Outbox

    function Snapshot(): World
      reads this, disk, out
    {
      World(userLanguages, disk.Value(), out.sent)
    }

    constructor (disk: Disk, out: Outbox)
      requires out.sent == []
      ensures this.disk == disk && this.out == out
      ensures Snapshot() == Initial(disk.Value())
    {
      userLanguages := map[];
      this.disk := disk;
      this.out := out;
    }

    method Start(u: UserId)
      modifies out
      ensures Snapshot() == OnStart(old(Snapshot()), u)
    {
      out.Send(Prompt(u));
    }

    method ChooseLang(u: UserId, data: string)
      requires StartsWith(data, "lang_")
      modifies this, out
      ensures Snapshot() == OnLanguage(old(Snapshot()), u, data)
    {
      var code := ParseLang(data);
      userLanguages := userLanguages[u := code];
      Confirm(Clean, out, u, code);
    }

    method HandleLink(u: UserId, text: Option<string>, inp: Inputs)
      modifies disk, out
      ensures Snapshot() == OnMessage(old(Snapshot()), u, text, inp)
    {
      var code := if u in userLanguages then userLanguages[u] else DefaultCode;
      AnswerLink(Clean, disk, out, u, code, text, inp);
    }

    method Handle(e: Event)
      modifies this, disk, out
      ensures Snapshot() == Step(old(Snapshot()), e)
    {
      match e {
        case Start(u) =>
          Start(u);
        case Callback(u, data) =>
          if StartsWith(data, "lang_") {
            ChooseLang(u, data);
          }
        case Message(u, text, inp) =>
          HandleLink(u, text, inp);
      }
    }
  }
}
