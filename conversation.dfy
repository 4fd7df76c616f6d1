/**
 * The handler logic both bots share: the `/start` prompt and its keyboard,
 * parsing a `lang_X` button payload, the link check, and the replies to a
 * text message once the user's language code is known.
 */
module Conversation {
  import opened Wrappers
  import opened Text
  import opened FileSystem
  import opened Telegram
  import opened Translations
  import opened Mp3Job

  /** An update as the dispatcher routes it: the `/start` command, a button
      press with its callback payload, or any other message (whose `text` is
      None when it is not a text message). `inputs` is what the outside world
      answers if the message starts a download. */
  datatype Event =
    | Start(user: UserId)
    | Callback(user: UserId, data: string)
    | Message(user: UserId, text: Option<string>, inputs: Inputs)

  /** The language used when none is stored. */
  const DefaultCode: string := "en"

  /** The caption of a language button. */
  function Caption(l: Lang): string {
    match l
    case Hy => "Հայ 🇦🇲"
    case Ru => "Рус 🇷🇺"
    case En => "Eng 🇬🇧"
  }

  /** The button for one language; its payload is `lang_` and the code. */
  function LangButton(l: Lang): Button {
    Button(Caption(l), "lang_" + Code(l))
  }

  /** The one-row inline keyboard under the `/start` prompt. */
  const StartKeyboard: seq<seq<Button>> := [[LangButton(Hy), LangButton(Ru), LangButton(En)]]

  /** The `/start` reply: the English prompt with the language buttons. */
  function Prompt(u: UserId): Action {
    Reply(u, Translate(Fsm, ChooseLanguage, En), StartKeyboard)
  }

  /** The only link validation: the stripped text starts with "http". */
  predicate IsLink(text: string) {
    StartsWith(Strip(text), "http")
  }

  /** Trailing whitespace never matters: a text is a link exactly when it
      starts with "http" after its leading whitespace. */
  lemma IsLinkAfterLeadingSpace(text: string)
    ensures IsLink(text) <==> StartsWith(TrimStart(text), "http")
  {
    var s := TrimStart(text);
    var r := TrimEnd(s);
    TrimEndShape(s);
    if StartsWith(s, "http") {
      assert s[3] == 'p' && !IsSpace(s[3]);
      assert r[..4] == s[..4];
    }
    if StartsWith(r, "http") {
      assert s[..4] == r[..4];
    }
  }

  /** Any text that starts with "http" passes, whether or not it names a video. */
  lemma HttpPrefixIsLink(rest: string)
    ensures IsLink("http" + rest)
  {
    IsLinkAfterLeadingSpace("http" + rest);
    assert ("http" + rest)[..4] == "http";
  }

  /** A text whose first non-space character is not `h` is refused. */
  lemma OtherStartIsNotLink(text: string)
    requires TrimStart(text) != [] && TrimStart(text)[0] != 'h'
    ensures !IsLink(text)
  {
    IsLinkAfterLeadingSpace(text);
  }

  /** `callback.data.split("_")[1]`, for a payload the `lang_` filter let through. */
  function ParseLang(data: string): string
    requires StartsWith(data, "lang_")
  {
    SplitShape(data, '_');
    assert data[4] == '_';
    Split(data, '_')[1]
  }

  /** The payload `lang_X` yields `X` for any `X` without an underscore. */
  lemma ParsePayload(code: string)
    requires '_' !in code
    ensures StartsWith("lang_" + code, "lang_")
    ensures ParseLang("lang_" + code) == code
  {
    assert "lang_" + code == Join(["lang", code], '_');
    SplitJoin(["lang", code], '_');
  }

  /** Every button's payload passes the `lang_` filter and parses back to
      its own language: the three buttons select `hy`, `ru` and `en`. */
  lemma ButtonSelectsItsLanguage(l: Lang)
    ensures StartsWith(LangButton(l).data, "lang_")
    ensures LangOf(ParseLang(LangButton(l).data)) == Some(l)
  {
    ParsePayload(Code(l));
  }

  /** The replies to a language button: the keyboard is cleared, then, when
      the code is in the table, the "send a link" prompt and the
      acknowledgement follow; otherwise the lookup raises and nothing follows. */
  function Confirmation(v: Variant, u: UserId, code: string): (r: seq<Action>)
    ensures |r| >= 1 && r[0] == ClearKeyboard(u)
    ensures LangOf(code).None? ==> |r| == 1
    ensures LangOf(code).Some? ==>
      r == [ClearKeyboard(u), Reply(u, Translate(v, SendLink, LangOf(code).value), []), AnswerCallback(u)]
  {
    [ClearKeyboard(u)] +
    match LangOf(code)
    case None => []
    case Some(l) => [Reply(u, Translate(v, SendLink, l), []), AnswerCallback(u)]
  }

  /** The message a finished job is reported with. */
  function OutcomeText(v: Variant, l: Lang, o: Outcome): string {
    match o
    case Delivered(_) => Translate(v, Finished, l)
    case TooBig => Translate(v, FileTooBig, l)
    case Failed(m) => ErrorText(v, l, m)
  }

  /** The filesystem after handling a text message, and the replies, in order. */
  datatype Turn = Turn(fs: Fs, replies: seq<Action>)

  /** The replies to an accepted link in language `l`: "downloading", the
      audio when the job delivered it, and the message for the job's outcome. */
  function Report(v: Variant, fs: Fs, u: UserId, l: Lang, inp: Inputs): Turn {
    var j := Job(v, fs, u, inp);
    Turn(j.fs,
         [Reply(u, Translate(v, Downloading, l), [])]
         + (if j.outcome.Delivered? then [j.outcome.audio] else [])
         + [Reply(u, OutcomeText(v, l, j.outcome), [])])
  }

  /** `process_link` / `handle_link` once the language code is known. */
  function LinkTurn(v: Variant, fs: Fs, u: UserId, code: string, text: Option<string>, inp: Inputs): Turn {
    match text
    case None => Turn(fs, [])
    case Some(t) =>
      if !IsLink(t) then Turn(fs, [Reply(u, InvalidLinkText(v), [])])
      else
        match LangOf(code)
        case None => Turn(fs, [])
        case Some(l) => Report(v, fs, u, l, inp)
  }

  /** A text that is not a link gets exactly the untranslated "Invalid link."
      reply, and no directory is created and nothing is extracted. */
  lemma InvalidLinkOnlyReply(v: Variant, fs: Fs, u: UserId, code: string, t: string, inp: Inputs)
    requires !IsLink(t)
    ensures LinkTurn(v, fs, u, code, Some(t), inp) == Turn(fs, [Reply(u, InvalidLinkText(v), [])])
  {
  }

  /** For an accepted link in a known language, the replies are "downloading",
      then the audio if and only if the job delivered, then exactly one
      closing message: "finished", "too big", or the error with its
      description; the filesystem is the one the job leaves. */
  lemma LinkReplies(v: Variant, fs: Fs, u: UserId, code: string, t: string, inp: Inputs)
    requires IsLink(t) && LangOf(code).Some?
    ensures var l := LangOf(code).value;
      var turn := LinkTurn(v, fs, u, code, Some(t), inp);
      var j := Job(v, fs, u, inp);
      var down := Reply(u, Translate(v, Downloading, l), []);
      turn.fs == j.fs
      && (j.outcome.Delivered? ==>
            turn.replies == [down, j.outcome.audio, Reply(u, Translate(v, Finished, l), [])])
      && (j.outcome == TooBig ==>
            turn.replies == [down, Reply(u, Translate(v, FileTooBig, l), [])])
      && (j.outcome.Failed? ==>
            turn.replies == [down, Reply(u, ErrorText(v, l, j.outcome.description), [])])
  {
  }

  /** A failed job is reported with one message, after "downloading", whose
      text ends with the failure's description. */
  lemma FailureReportsDescription(v: Variant, fs: Fs, u: UserId, code: string, t: string, inp: Inputs)
    requires IsLink(t) && LangOf(code).Some?
    requires Job(v, fs, u, inp).outcome.Failed?
    ensures var m := Job(v, fs, u, inp).outcome.description;
      var replies := LinkTurn(v, fs, u, code, Some(t), inp).replies;
      |replies| == 2 && replies[1].Reply?
      && |replies[1].text| >= |m| && replies[1].text[|replies[1].text| - |m|..] == m
  {
    var l := LangOf(code).value;
    var m := Job(v, fs, u, inp).outcome.description;
    LinkReplies(v, fs, u, code, t, inp);
    ErrorTextCarriesDescription(v, l, m);
    var e := ErrorText(v, l, m);
    var prefix := Translate(v, Error, l)[..|Translate(v, Error, l)| - 2];
    assert e == prefix + m;
    assert e[|e| - |m|..] == m;
  }

  /** The replies `LinkTurn` describes, sent through an outbox while the
      download job runs against a disk. */
  method AnswerLink(v: Variant, disk: Disk, out: Outbox, u: UserId, code: string, text: Option<string>, inp: Inputs)
    modifies disk, out
    ensures var turn := LinkTurn(v, old(disk.Value()), u, code, text, inp);
      disk.Value() == turn.fs && out.sent == old(out.sent) + turn.replies
  {
    if text.None? {
      return;
    }
    var url := Strip(text.value);
    if !StartsWith(url, "http") {
      out.Send(Reply(u, InvalidLinkText(v), []));
      return;
    }
    var lang := LangOf(code);
    if lang.None? {
      return;
    }
    RunJob(v, disk, out, u, lang.value, inp);
  }

  /** The `try` block of the handler and its `except` branches. */
  method RunJob(v: Variant, disk: Disk, out: Outbox, u: UserId, l: Lang, inp: Inputs)
    modifies disk, out
    ensures var turn := Report(v, old(disk.Value()), u, l, inp);
      disk.Value() == turn.fs && out.sent == old(out.sent) + turn.replies
  {
    ghost var j := Job(v, disk.Value(), u, inp);
    ghost var before := out.sent;
    var down := Reply(u, Translate(v, Downloading, l), []);
    out.Send(down);
    var outcome := DownloadAndSendMp3(v, disk, out, u, inp);
    ghost var audio := if j.outcome.Delivered? then [j.outcome.audio] else [];
    assert out.sent == before + [down] + audio;
    out.Send(Reply(u, OutcomeText(v, l, outcome), []));
  }

  /** The replies `Confirmation` describes, sent through an outbox. */
  method Confirm(v: Variant, out: Outbox, u: UserId, code: string)
    modifies out
    ensures out.sent == old(out.sent) + Confirmation(v, u, code)
  {
    out.Send(ClearKeyboard(u));
    var lang := LangOf(code);
    if lang.None? {
      return;
    }
    out.Send(Reply(u, Translate(v, SendLink, lang.value), []));
    out.Send(AnswerCallback(u));
  }
}
