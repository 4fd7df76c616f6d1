# YouTube → MP3 Telegram bot: the conversation controller

This project models the per-user conversation controller of a Telegram bot.
A user pastes a YouTube link, and the bot answers with the MP3 of the video.
Two variants of the controller are modelled side by side:

- `bot.py` keeps a finite-state machine per user. `/start` moves the user to
  `choosing_language`. A language button stores `lang` and moves the user to
  `ready`. Only in `ready` is a text message treated as a link.
- `bot_clean.py` keeps a process-wide `user_languages` dictionary and no
  states. Every text message is a link attempt, answered in the stored
  language, or in English when the user never chose one.

Both variants hand an accepted link to `download_and_send_mp3`. That job:

1. creates a fresh job directory under `downloads`;
2. checks for `cookies.txt`;
3. lets the extractor write the MP3;
4. checks that the MP3 exists;
5. checks that it is not over 50 MiB;
6. sends it;
7. removes what it can.

The handler turns the job's end into exactly one closing reply: finished, too
big, or the localised error carrying the exception's text.

Modules:

- `Wrappers`: `Option`.
- `Text`: Python's `strip`, `startswith`, `split` and `str.format`, used on a
  single `{}` field.
- `Paths`: `os.path.splitext` and the `.mp3` / `.webp` paths derived from
  `prepare_filename`.
- `FileSystem`: the filesystem as a value (`Fs`), plus a `Disk` class whose
  methods update it in place the way `os.makedirs`, `os.remove` and
  `os.rmdir` do.
- `Telegram`: outbound actions, and an `Outbox` whose `Send` appends to the
  log.
- `Translations`: both translation tables, with the strings exactly as in
  the source.
- `Mp3Job`: the download job. `Job` is its specification as a function.
  `DownloadAndSendMp3` runs it step by step against a `Disk` and an `Outbox`.
- `Conversation`: what the two variants share. This covers:
  - the start keyboard;
  - the link test;
  - callback payload parsing;
  - the replies to a text message (`LinkTurn`), with the methods that send
    them.
- `FsmBot` and `CleanBot`: the controllers of the two variants. In each:
  - a `World` value and a `Step`/`Run` specification;
  - a `Bot` class whose fields are the per-user state;
  - `Bot` handler methods, each proved to leave the class in the state that
    `Step` describes.

The outside world enters as data carried by the events:

- the `uuid4` directory name;
- the extractor's result, either the metadata and the files it wrote, or
  the description of the exception it raised;
- whether Telegram refuses the audio upload.

Two consequences of the code are worth stating up front:

- The link check is only the `http` prefix of the stripped text, so
  `https://not-a-video` is accepted (`Conversation.HttpPrefixIsLink`).
- An oversized MP3 is not removed: `FileTooBigError` is raised before the
  cleanup block, so the MP3 and its job directory stay on disk
  (`Mp3Job.OversizedIsKept`).

## Model

| member | source | states |
|---|---|---|
| Text.StripShape | bot.py:91 | `strip()` leaves a result that neither starts nor ends with whitespace |
| Text.StripPadded | bot.py:91 | `strip()` removes exactly the leading and trailing whitespace around a core that has none at its ends |
| Text.StripIdempotent | bot.py:91 | stripping twice is stripping once |
| Text.SplitShape | bot.py:80 | `split("_")` pieces contain no separator; there is a single piece exactly when the separator does not occur |
| Text.JoinSplit | bot.py:80 | joining the pieces of `split` with the separator gives back the original text |
| Text.SplitJoin | bot.py:80 | splitting pieces that have no separator, once they are joined, gives back the pieces |
| Text.FormatTrailingField | bot.py:105 | `template.format(arg)` on a template whose only field is a trailing `{}` is the template's text followed by `arg` |
| Paths.LastIndexOf | bot.py:147 | the index of the last occurrence of a character, or -1; nothing after it matches |
| Paths.SplitExtShape | bot.py:147-148 | `splitext` is a split: root + extension is the path; the extension is empty or one dot followed by no `.` or `/` |
| Paths.DerivedPathsKeepDirectory | bot.py:146-148 | the `.mp3` and `.webp` paths keep the directory part of `prepare_filename` |
| Paths.ReplacesLastExtension | bot.py:146-148 | only the last extension is replaced: `stem.ext` becomes `stem.mp3` and `stem.webp` for any stem whose last component is not all dots, including one ending in a dot (`d/a..webm` becomes `d/a..mp3`) |
| Paths.Mp3IsNotThumb | bot.py:147-148 | the MP3 path and the thumbnail path are never the same file |
| FileSystem.Disk.Makedirs | bot.py:115 | the disk becomes `AfterMakedirs`: the directory and all its ancestors are added, and no file changes |
| FileSystem.Disk.Write | bot.py:142-144 | the files the extractor writes are added, or replace files of the same name |
| FileSystem.Disk.Remove | bot.py:169 | removes an existing file and reports success; anything else leaves the disk as it was and reports the failure |
| FileSystem.Disk.Rmdir | bot.py:172 | removes an existing, empty directory; otherwise fails and changes nothing |
| Telegram.Outbox.Send | bot.py:76 | each outbound call appends exactly one action to the log |
| Translations.LangOf | bot.py:35-66 | the codes `hy`, `ru`, `en` select a table column; any other code is a lookup failure |
| Translations.LangOfCode | bot.py:35-66 | each language's own code selects that language |
| Translations.ErrorTextCarriesDescription | bot.py:56-60 | every localised error text is the template's fixed text followed by the exception's description |
| Mp3Job.AudioFor | bot.py:158-166 | the audio message carries the MP3 path, the uploader (default empty) and the duration. The title defaults to "Audio" in `bot.py` and is passed through in `bot_clean.py`. In `bot.py` the thumbnail is the `.webp` next to the MP3 when that file exists, and none otherwise; `bot_clean.py` attaches none |
| Mp3Job.DownloadAndSendMp3 | bot.py:111-174 | running the job on a disk and an outbox leaves the disk as `Job` says and sends the audio exactly when the job delivers |
| Mp3Job.DeliveredIff | bot.py:111-166 | the job delivers if and only if cookies exist, the extractor succeeds, the MP3 exists, it is not oversized and the upload is accepted; what it sends is the audio for the extracted metadata |
| Mp3Job.CookiesCheckedBeforeExtraction | bot.py:115-119 | with no `cookies.txt` the job fails with the cookies message before extraction: no file appears, but the job directory has already been created |
| Mp3Job.FailuresAreReported | bot.py:141-166 | the extractor's exception, a missing MP3 and a refused upload each end the job with their own description, and leave the extractor's files on disk |
| Mp3Job.OversizedIsKept | bot.py:153-155 | the job is too big if and only if the MP3 exceeds 52428800 bytes; then the MP3 and the job directory stay on disk; exactly 52428800 with an accepted upload is delivered |
| Mp3Job.CleanupOnlyRemoves | bot.py:168-174 | the best-effort cleanup never adds or changes a file; it removes at most the MP3, (in `bot.py`) the thumbnail, and the job directory; in `bot_clean.py` every other file survives |
| Mp3Job.CleanupRemovesJob | bot.py:168-174 | when the job directory holds only the MP3 (and, in `bot.py`, the thumbnail), cleanup removes exactly those and the directory |
| Mp3Job.FreshCleanup | bot.py:168-174 | after `makedirs` of a fresh directory and a write of only the MP3 (and, in `bot.py`, the thumbnail) into it, cleanup restores the files exactly; only the directory's ancestors remain added |
| Mp3Job.FreshJobLeavesNoTrace | bot.py:111-174 | a job in a fresh `uuid4` directory, whose extractor writes only the MP3 (and, in `bot.py`, the thumbnail) there at no more than 52428800 bytes, with the upload accepted, delivers and leaves every file as it was; only `downloads` and the other ancestors stay created |
| Conversation.IsLinkAfterLeadingSpace | bot.py:91-93 | whitespace around the text does not change whether it is a link |
| Conversation.HttpPrefixIsLink | bot.py:91-93 | any text that begins with `http` is accepted, whatever follows |
| Conversation.OtherStartIsNotLink | bot.py:91-93 | a text whose first non-space character does not begin `http` is rejected |
| Conversation.ParsePayload | bot.py:80 | `split("_")[1]` of `lang_` + code is the code, for a code without `_` |
| Conversation.ButtonSelectsItsLanguage | bot.py:70-80 | each start button's payload passes the `lang_` filter and parses to that button's language, so the three buttons select `hy`, `ru` and `en` |
| Conversation.InvalidLinkOnlyReply | bot.py:91-95 | a text that is not a link gets only the invalid-link reply, and the filesystem is untouched |
| Conversation.LinkReplies | bot.py:97-105 | for a link, replies are "downloading", then the audio only on delivery, then exactly one of finished / too big / error with the description |
| Conversation.FailureReportsDescription | bot.py:104-105 | a failed job is reported by exactly one message after "downloading", ending with the exception's text |
| Conversation.AnswerLink | bot.py:89-106 | the handler body on a disk and an outbox produces exactly the filesystem and replies of `LinkTurn` |
| Conversation.RunJob | bot.py:97-106 | the `try`/`except` around the job sends the report `Report` describes |
| Conversation.Confirm | bot.py:83-85 | sends exactly the confirmation actions for the code |
| FsmBot.StepKeepsReadyHasLanguage | bot.py:78-90 | every handler keeps the invariant that a user in `ready` has a stored `lang` |
| FsmBot.RunKeepsReadyHasLanguage | bot.py:78-90 | the invariant holds after any sequence of updates |
| FsmBot.DefaultNeverUsed | bot.py:89-90 | in every reachable state the `"en"` default of `process_link` is never consulted |
| FsmBot.RunOnlyAppends | bot.py:68-106 | the outbound log only grows; earlier actions are never changed |
| FsmBot.StepIsolatesUsers | bot.py:68-106 | an update from one user leaves every other user's state and `lang` unchanged |
| FsmBot.StartFromAnyState | bot.py:68-76 | `/start` in any state sets `choosing_language`, keeps a stored `lang`, touches no file and sends the English prompt with the three buttons |
| FsmBot.LanguageFromAnyState | bot.py:78-85 | a button in any state stores its code and sets `ready`, then clears the keyboard, prompts for a link in that language and acknowledges |
| FsmBot.UnknownLanguageStopsAfterClearing | bot.py:80-84 | an unknown code is still stored and the state is still `ready`, but only the keyboard clearing is sent |
| FsmBot.MessageIgnoredUnlessReady | bot.py:87 | outside `ready`, a message changes nothing and gets no reply |
| FsmBot.InvalidLinkInReady | bot.py:91-95 | in `ready`, a non-link gets only "Invalid link."; state, `lang` and files are unchanged |
| FsmBot.LinkInReady | bot.py:87-106 | in `ready`, a link is answered in the stored language with the job's report; state and `lang` stay |
| FsmBot.OnlyOwnCallbackSetsLang | bot.py:78-90 | a user's stored `lang` changes only through that user's own `lang_` callback, in any state and whatever else the user sends |
| FsmBot.ChosenLanguagePersists | bot.py:78-90 | after a user chooses a language, the stored `lang` stays that language until the same user presses another language button |
| FsmBot.FirstDownload | bot.py:68-106 | `/start`, a language button and a link from a fresh start leave the user `ready` with that language, after the prompt, the confirmation and the report |
| FsmBot.Bot.constructor | bot.py:26-27 | a fresh process has no states and no stored languages |
| FsmBot.Bot.Start | bot.py:68-76 | the `start` handler does what `OnStart` describes and keeps the invariant |
| FsmBot.Bot.SetLanguage | bot.py:78-85 | the `set_language` handler does what `OnLanguage` describes and keeps the invariant |
| FsmBot.Bot.ProcessLink | bot.py:87-106 | the `process_link` handler does what `OnLink` describes and keeps the invariant |
| FsmBot.Bot.Handle | bot.py:68-106 | the dispatcher routes each update as `Step` describes: unfiltered callbacks and messages outside `ready` are dropped |
| CleanBot.ChosenLanguagePersists | bot_clean.py:73-84 | after a user presses a language button, `user_languages.get(user_id, "en")` yields that button's code whatever other updates follow, until the same user presses another button |
| CleanBot.StartKeepsLanguage | bot_clean.py:62-71 | `/start` sends the English prompt with three buttons and keeps the stored language |
| CleanBot.ChooseLangOnlyThisUser | bot_clean.py:73-79 | a button sets this user's entry, adds no other key, leaves every other entry unchanged, and confirms in that language |
| CleanBot.UnknownLanguageStored | bot_clean.py:74-78 | an unknown code is still stored, and only the keyboard clearing is sent |
| CleanBot.NoGatingDefaultEnglish | bot_clean.py:81-99 | a user who never chose a language is answered in English: a link gets the English report, anything else "❌ Invalid link." |
| CleanBot.MessageKeepsLanguages | bot_clean.py:81-99 | a message never changes `user_languages` |
| CleanBot.RunOnlyAppends | bot_clean.py:62-99 | the outbound log only grows |
| CleanBot.OnlyOwnCallbackSetsLanguage | bot_clean.py:73-76 | a user's entry changes only through that user's own `lang_` callback; other callbacks, messages and other users' updates leave it |
| CleanBot.Bot.constructor | bot_clean.py:27 | the dictionary starts empty |
| CleanBot.Bot.Start | bot_clean.py:62-71 | the `start` handler does what `OnStart` describes |
| CleanBot.Bot.ChooseLang | bot_clean.py:73-79 | the `choose_lang` handler does what `OnLanguage` describes |
| CleanBot.Bot.HandleLink | bot_clean.py:81-99 | the `handle_link` handler does what `OnMessage` describes |
| CleanBot.Bot.Handle | bot_clean.py:62-99 | the dispatcher routes each update as `Step` describes: every message goes to `handle_link` |

## Left out

- Webhook and application setup, and the environment-variable checks: these
  are configuration and I/O.
- The extractor options and the extraction itself: a foreign library. Its
  result is an input: the metadata with the files written, or an exception
  description. A failing extractor is assumed to have written nothing.
- `run_in_executor` and the event loop: each update is handled as one
  sequential step, so interleaving of concurrent jobs is not modelled.
- `uuid4`: the job directory name is an input. Its freshness, and the
  output template placing `prepare_filename` inside it (bot.py:123), are
  preconditions of `Mp3Job.FreshJobLeavesNoTrace`, not something the model
  generates.
- Telegram calls other than the audio upload are assumed to succeed. The
  chat is identified with the user.
- `CommandStart` parsing and the aiogram filter matching: `/start` is its
  own event kind.
- A message with no text makes `strip()` raise. It is modelled as a message
  that gets no reply and changes nothing.
- Errors from `os.makedirs` are not modelled: for example, a file already
  sitting where the job directory goes.
- Directories have size 0, so `os.path.getsize` on a directory is not
  modelled.
- `Text.Format`: only the first `{}` field is replaced, the only form the
  templates use. Other format syntax is not modelled.
- `Paths.SplitExt`: the leading-dot rule is modelled for the final path
  component only. Extended path syntax such as Windows drives is not
  modelled.
- A metadata title or uploader that is present but `None` is not
  distinguished from a missing one. `info.get("uploader", "")` would then pass
  `None` as the performer, which `performer: string` cannot carry.
- Logging, and the yt-dlp post-processor options such as bitrate and ID3
  tags.
