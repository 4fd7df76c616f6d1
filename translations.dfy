/**
 * The `translations` dictionaries of the two bot variants and the fixed,
 * untranslated strings the handlers use.
 */
module Translations {
  import opened Wrappers
  import opened Text

  /** Which bot the text belongs to: `bot.py` (with its FSM) or `bot_clean.py`. */
  datatype Variant = Fsm | Clean

  datatype Lang = Hy | Ru | En

  /** The keys of the `translations` dictionary. */
  datatype Key = ChooseLanguage | SendLink | Downloading | Finished | Error | FileTooBig

  /** The dictionary key of a language. */
  function Code(l: Lang): string {
    match l
    case Hy => "hy"
    case Ru => "ru"
    case En => "en"
  }

  /** The language a stored code stands for; None where `translations[key][code]` raises `KeyError`. */
  function LangOf(code: string): (r: Option<Lang>)
    ensures r.Some? ==> Code(r.value) == code
    ensures r.None? ==> code != "hy" && code != "ru" && code != "en"
  {
    if code == "hy" then Some(Hy)
    else if code == "ru" then Some(Ru)
    else if code == "en" then Some(En)
    else None
  }

  lemma LangOfCode(l: Lang)
    ensures LangOf(Code(l)) == Some(l)
  {
  }

  /** `translations[key][code]`. */
  function Translate(v: Variant, key: Key, l: Lang): string {
    match key
    case ChooseLanguage =>
      (match l
       case En => "Please choose your language."
       case Hy => "Խնդրում եմ ընտրեք լեզուն։"
       case Ru => "Пожалуйста, выберите язык.")
    case SendLink =>
      (match l
       case En => "Send a YouTube link."
       case Hy => "Ուղարկեք YouTube հղումը։"
       case Ru => "Отправьте ссылку на YouTube.")
    case Downloading =>
      if v == Fsm then
        (match l
         case En => "⏳ Downloading and processing..."
         case Hy => "⏳ Ներբեռնում և մշակում..."
         case Ru => "⏳ Загрузка и обработка...")
      else
        (match l
         case En => "⏳ Downloading..."
         case Hy => "⏳ Ներբեռնում..."
         case Ru => "⏳ Загрузка...")
    case Finished =>
      if v == Fsm then
        (match l
         case En => "✅ Download finished."
         case Hy => "✅ Ներբեռնումը ավարտված է։"
         case Ru => "✅ Загрузка завершена.")
      else
        (match l
         case En => "✅ Sent."
         case Hy => "✅ Ուղարկված է։"
         case Ru => "✅ Отправлено.")
    case Error =>
      (match l
       case En => "❌ Error: {}"
       case Hy => "❌ Սխալ՝ {}"
       case Ru => "❌ Ошибка: {}")
    case FileTooBig =>
      if v == Fsm then
        (match l
         case En => "❌ File is too big for Telegram (limit is ~50MB)."
         case Hy => "❌ Ֆայլը մեծ է Telegram-ի համար (սահմանը ~50ՄԲ է)։"
         case Ru => "❌ Файл слишком большой для Telegram (лимит ~50MB).")
      else
        (match l
         case En => "❌ File is too big (50MB limit)."
         case Hy => "❌ Ֆայլը մեծ է (50ՄԲ սահման)։"
         case Ru => "❌ Файл слишком большой (лимит 50MB).")
  }

  /** The error reply: the localised template with the description in place of `{}`. */
  function ErrorText(v: Variant, l: Lang, description: string): string {
    Format(Translate(v, Error, l), description)
  }

  /** The error reply is the template's text before `{}` followed by the whole description. */
  lemma ErrorTextCarriesDescription(v: Variant, l: Lang, description: string)
    ensures var t := Translate(v, Error, l);
      |t| >= 2 && t[|t| - 2..] == "{}"
      && ErrorText(v, l, description) == t[..|t| - 2] + description
  {
    var t := Translate(v, Error, l);
    var prefix := t[..|t| - 2];
    assert t == prefix + "{}";
    assert '{' !in prefix;
    FormatTrailingField(prefix, description);
  }

  /** The untranslated reply to a text that is not a link. */
  function InvalidLinkText(v: Variant): string {
    if v == Fsm then "Invalid link." else "❌ Invalid link."
  }

  /** The description of the exception raised when `cookies.txt` is absent. */
  function CookiesMissingText(v: Variant): string {
    if v == Fsm then "cookies.txt not found. Please upload your YouTube cookies."
    else "cookies.txt missing"
  }
}
