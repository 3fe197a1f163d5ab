/**
 * Telegram notifications (backend/app/services/telegram_notifier.py,
 * `TelegramNotifier`). The settings row is a `Settings` object (or `null`
 * when the table is empty); the Bot API is a `BotApi` object that records
 * every `sendMessage` post, and the reply to a post is a parameter.
 */
module TelegramNotifier {
  import opened Wrappers
  import opened Text
  import opened Parts

  const ApiBase: string := "https://api.telegram.org/bot"
  const ErrorHeader: string := "🚨 <b>Ошибка в AliasFinder</b>\n\n"
  const DetailsHeader: string := "\n\n<i>Детали:</i>\n"
  const NotConfigured: string := "Telegram настройки не сконфигурированы"
  const TestMessage: string := "✅ Тестовое сообщение из AliasFinder\n\nПодключение успешно!"
  const TestSent: string := "Сообщение успешно отправлено в Telegram"
  const TestFailed: string := "Не удалось отправить сообщение. Проверьте настройки."

  /** The notification columns of the settings row. */
  class Settings {
    var telegramEnabled: bool
    var botToken: Option<string>
    var chatId: Option<string>
    var notifyOnErrors: bool
    var notifyOnLowBalance: bool
    var lastOpenAiAlert: Option<real>
    var lastGoogleAlert: Option<real>

    constructor (enabled: bool, token: Option<string>, chat: Option<string>, onErrors: bool, onLowBalance: bool)
      ensures telegramEnabled == enabled && botToken == token && chatId == chat
      ensures notifyOnErrors == onErrors && notifyOnLowBalance == onLowBalance
      ensures lastOpenAiAlert.None? && lastGoogleAlert.None?
    {
      telegramEnabled := enabled;
      botToken := token;
      chatId := chat;
      notifyOnErrors := onErrors;
      notifyOnLowBalance := onLowBalance;
      lastOpenAiAlert := None;
      lastGoogleAlert := None;
    }
  }

  /** One `sendMessage` request: the URL and the JSON payload. */
  datatype Post = Post(url: string, chatId: string, text: string, parseMode: string)

  /** What a post yields: a JSON reply whose `ok` is truthy or not, an `httpx.HTTPError`, or another exception. */
  datatype Reply = Answered(ok: bool) | HttpError | Unexpected

  /** The Telegram Bot API, as the posts it has received. */
  class BotApi {
    var posts: seq<Post>

    constructor ()
      ensures posts == []
    {
      posts := [];
    }

    method Send(p: Post)
      modifies this
      ensures posts == old(posts) + [p]
    {
      posts := posts + [p];
    }
  }

  /** A settings row with a bot token and a chat id. */
  predicate Configured(settings: Settings?)
    reads settings
  {
    settings != null && Truthy(settings.botToken) && Truthy(settings.chatId)
  }

  /** Whether `send_message` gets as far as posting: `force` bypasses only the enabled switch. */
  predicate MaySend(settings: Settings?, force: bool)
    reads settings
  {
    settings != null && (force || settings.telegramEnabled) && Configured(settings)
  }

  /** The request `send_message` makes. */
  function MessagePost(settings: Settings, message: string): (p: Post)
    reads settings
    requires Configured(settings)
  {
    Post(ApiBase + settings.botToken.value + "/sendMessage", settings.chatId.value, message, "HTML")
  }

  /** Forcing never blocks a message the enabled switch lets through, and only needs token and chat id. */
  lemma ForceBypassesOnlyTheSwitch(settings: Settings?)
    ensures MaySend(settings, false) ==> MaySend(settings, true)
    ensures MaySend(settings, true) <==> Configured(settings)
    ensures settings != null && !settings.telegramEnabled ==> !MaySend(settings, false)
  {
  }

  /**
   * `send_message`: `true` exactly when the post was made and the reply's
   * `ok` is truthy; no post without settings, with notifications off
   * (unless forced), or without token and chat id.
   */
  method SendMessage(settings: Settings?, api: BotApi, reply: Reply, message: string, force: bool) returns (sent: bool)
    modifies api
    ensures !MaySend(settings, force) ==> !sent && api.posts == old(api.posts)
    ensures MaySend(settings, force) ==>
      api.posts == old(api.posts) + [MessagePost(settings, message)] && (sent <==> reply == Answered(true))
  {
    if settings == null {
      return false;
    }
    if !force && !settings.telegramEnabled {
      return false;
    }
    if !Truthy(settings.botToken) || !Truthy(settings.chatId) {
      return false;
    }
    api.Send(MessagePost(settings, message));
    match reply
    case Answered(ok) => sent := ok;
    case HttpError => sent := false;
    case Unexpected => sent := false;
  }

  /** The text of an error notification: the header, the message, and the details when there are any. */
  function ErrorMessage(message: string, details: Option<string>): (r: string)
    ensures StartsWith(r, ErrorHeader + message)
    ensures !Truthy(details) <==> r == ErrorHeader + message
    ensures Truthy(details) ==> EndsWith(r, DetailsHeader + details.value)
  {
    var head := ErrorHeader + message;
    assert head == head + [];
    if Truthy(details) then
      var r := head + DetailsHeader + details.value;
      assert r[..|head|] == head;
      assert r[|r| - |DetailsHeader + details.value|..] == DetailsHeader + details.value;
      r
    else head
  }

  /** `notify_error`: nothing is sent while error notifications are off. */
  method NotifyError(settings: Settings?, api: BotApi, reply: Reply, message: string, details: Option<string>)
    returns (sent: bool)
    modifies api
    ensures settings == null || !settings.notifyOnErrors ==> !sent && api.posts == old(api.posts)
    ensures settings != null && settings.notifyOnErrors ==>
      && (!MaySend(settings, false) ==> !sent && api.posts == old(api.posts))
      && (MaySend(settings, false) ==>
            api.posts == old(api.posts) + [MessagePost(settings, ErrorMessage(message, details))] &&
            (sent <==> reply == Answered(true)))
  {
    if settings == null || !settings.notifyOnErrors {
      return false;
    }
    sent := SendMessage(settings, api, reply, ErrorMessage(message, details), false);
  }

  /** A stored alert value suppresses a new alert when it is truthy (non-zero) and not above the balance. */
  predicate AlertSuppressed(last: Option<real>, current: real) {
    last.Some? && last.value != 0.0 && last.value <= current
  }

  /**
   * The de-duplication step of `notify_low_balance` on the two stored alert
   * values (OpenAI, Google): `None` when the alert is suppressed, else the
   * values to store. Other services leave both as they are.
   */
  function RecordAlert(service: string, openAi: Option<real>, google: Option<real>, current: real)
    : (r: Option<(Option<real>, Option<real>)>)
    ensures r.None? <==>
      (service == "OpenAI" && AlertSuppressed(openAi, current)) || (service == "Google" && AlertSuppressed(google, current))
    ensures r.Some? && service == "OpenAI" ==> r.value == (Some(current), google)
    ensures r.Some? && service == "Google" ==> r.value == (openAi, Some(current))
    ensures service != "OpenAI" && service != "Google" ==> r == Some((openAi, google))
  {
    if service == "OpenAI" then
      if AlertSuppressed(openAi, current) then None else Some((Some(current), google))
    else if service == "Google" then
      if AlertSuppressed(google, current) then None else Some((openAi, Some(current)))
    else Some((openAi, google))
  }

  /**
   * Once an alert for a non-zero balance is recorded, no alert for the same
   * service follows until the balance drops below it.
   */
  lemma RecordedAlertSuppressesRepeats(service: string, openAi: Option<real>, google: Option<real>, current: real, later: real)
    requires service == "OpenAI" || service == "Google"
    requires RecordAlert(service, openAi, google, current).Some?
    requires current != 0.0 && later >= current
    ensures var stored := RecordAlert(service, openAi, google, current).value;
      RecordAlert(service, stored.0, stored.1, later).None?
  {
  }

  /** A recorded balance of zero is falsy, so it never suppresses the next alert. */
  lemma ZeroBalanceAlertsRepeat(service: string, google: Option<real>)
    requires service == "OpenAI"
    ensures var stored := RecordAlert(service, Some(0.0), google, 0.0);
      stored == Some((Some(0.0), google)) && RecordAlert(service, stored.value.0, stored.value.1, 0.0).Some?
  {
  }

  /** The low-balance text; `money` renders an amount with two decimals (`:.2f`). */
  function LowBalanceMessage(service: string, current: real, threshold: real, money: real -> string): string {
    "⚠️ <b>Низкий баланс " + service + "</b>\n\n" +
    "Текущий баланс: <b>$" + money(current) + "</b>\n" +
    "Пороговое значение: $" + money(threshold) + "\n\n" +
    "Пожалуйста, пополните баланс для продолжения работы."
  }

  /**
   * `notify_low_balance`: nothing happens while low-balance notifications
   * are off or when the alert is suppressed; otherwise the alert value is
   * stored (committed) and the message sent.
   */
  method NotifyLowBalance(settings: Settings?, api: BotApi, reply: Reply, service: string, current: real, threshold: real,
                          money: real -> string)
    returns (sent: bool)
    modifies settings, api
    ensures settings == null ==> !sent && api.posts == old(api.posts)
    ensures settings != null ==>
      && settings.telegramEnabled == old(settings.telegramEnabled)
      && settings.botToken == old(settings.botToken) && settings.chatId == old(settings.chatId)
      && settings.notifyOnErrors == old(settings.notifyOnErrors)
      && settings.notifyOnLowBalance == old(settings.notifyOnLowBalance)
    ensures settings != null && !settings.notifyOnLowBalance ==>
      && !sent && api.posts == old(api.posts)
      && settings.lastOpenAiAlert == old(settings.lastOpenAiAlert) && settings.lastGoogleAlert == old(settings.lastGoogleAlert)
    ensures settings != null && settings.notifyOnLowBalance ==>
      var step := RecordAlert(service, old(settings.lastOpenAiAlert), old(settings.lastGoogleAlert), current);
      && (step.None? ==>
            !sent && api.posts == old(api.posts) &&
            settings.lastOpenAiAlert == old(settings.lastOpenAiAlert) && settings.lastGoogleAlert == old(settings.lastGoogleAlert))
      && (step.Some? ==>
            && (settings.lastOpenAiAlert, settings.lastGoogleAlert) == step.value
            && (!MaySend(settings, false) ==> !sent && api.posts == old(api.posts))
            && (MaySend(settings, false) ==>
                  api.posts == old(api.posts) + [MessagePost(settings, LowBalanceMessage(service, current, threshold, money))] &&
                  (sent <==> reply == Answered(true))))
  {
    if settings == null || !settings.notifyOnLowBalance {
      return false;
    }
    if service == "OpenAI" {
      if AlertSuppressed(settings.lastOpenAiAlert, current) {
        return false;
      }
      settings.lastOpenAiAlert := Some(current);
    } else if service == "Google" {
      if AlertSuppressed(settings.lastGoogleAlert, current) {
        return false;
      }
      settings.lastGoogleAlert := Some(current);
    }
    sent := SendMessage(settings, api, reply, LowBalanceMessage(service, current, threshold, money), false);
  }

  /** `test_connection`: a forced test message, unless token or chat id is missing. */
  method TestConnection(settings: Settings?, api: BotApi, reply: Reply) returns (ok: bool, text: string)
    modifies api
    ensures !Configured(settings) ==> !ok && text == NotConfigured && api.posts == old(api.posts)
    ensures Configured(settings) ==>
      && api.posts == old(api.posts) + [MessagePost(settings, TestMessage)]
      && (ok <==> reply == Answered(true))
      && text == (if ok then TestSent else TestFailed)
  {
    if !Configured(settings) {
      return false, NotConfigured;
    }
    ok := SendMessage(settings, api, reply, TestMessage, true);
    text := if ok then TestSent else TestFailed;
  }
}
