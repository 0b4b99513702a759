/**
 * What the webhook does with each inbound LINE event, as a function of the
 * store before the event, the settings and the answers of the outside
 * world: the filter, the deduplication ledger, the onboarding machine,
 * keyword handover with agent notification, the human-mode timeout and the
 * AI dispatch. `Process` is one event, `Run` a batch in order. The
 * imperative handler in module Webhook is proved to compute exactly this.
 */
module Pipeline {
  import opened Options
  import opened JsString
  import opened Config
  import opened Registration
  import opened AiRequest

  /** A text message, or a message of any other type (sticker, image, ...). */
  datatype Message = TextMessage(text: Option<string>) | OtherMessage

  /** A webhook event: a message event, or an event of any other type (follow, postback, ...); `webhookEventId` is the delivery id used for deduplication. */
  datatype Event =
    | MessageEvent(message: Message, webhookEventId: Option<string>, userId: string, replyToken: string)
    | OtherEvent(webhookEventId: Option<string>)

  /** What the AI backend call produced: the extracted answer text, or the message of the error it threw. */
  datatype AiOutcome = Answered(text: string) | Failed(message: string)

  /**
   * The outside world's answers while one event is handled: the clock (epoch
   * milliseconds), the profile lookup (None when it throws), the agents
   * whose push throws, the reference file fetch (None when it fails) and
   * the AI call.
   */
  datatype Env = Env(now: int, profileName: Option<string>, failedPushes: set<string>,
                     referenceFile: Option<FetchedFile>, ai: AiOutcome)

  datatype Step = Step(event: Event, env: Env)

  /** What the handler asks of the transport and the AI backend, in order. */
  datatype Action =
    | Reply(replyToken: string, answer: Answer)
    | Push(to: string, text: string, delivered: bool)
    | CallAi(request: Request)

  /** The rows the handler touches: the `processed_events` ledger and the `user_states` table. */
  datatype Db = Db(processed: set<string>, users: map<string, UserState>)

  /** A text event that passed the filter: its delivery id, sender, trimmed text and reply token. */
  datatype Inbound = Inbound(eventId: string, userId: string, text: string, replyToken: string)

  /**
   * The filter: only a text message whose trimmed text is non-empty and
   * that carries a non-empty delivery id is handled.
   */
  function Accept(e: Event): (r: Option<Inbound>)
    ensures r.Some? <==> e.MessageEvent? && e.message.TextMessage?
                         && Trim(OrElse(e.message.text, "")) != []
                         && e.webhookEventId.Some? && e.webhookEventId.value != []
    ensures r.Some? ==> r.value.eventId == e.webhookEventId.value && r.value.userId == e.userId
                        && r.value.replyToken == e.replyToken && r.value.text == Trim(OrElse(e.message.text, ""))
  {
    match e
    case OtherEvent(_) => None
    case MessageEvent(OtherMessage, _, _, _) => None
    case MessageEvent(TextMessage(text), id, user, token) =>
      var msg := Trim(OrElse(text, ""));
      if msg == [] || id.None? || id.value == [] then None
      else Some(Inbound(id.value, user, msg, token))
  }

  function LookUp(db: Db, user: string): Option<UserState> {
    if user in db.users then Some(db.users[user]) else None
  }

  const HandoverAckText: string := "已為您轉接真人客服，請稍候。"
  const AnonymousNickname: string := "匿名用戶"
  const UnknownText: string := "未知"
  const AiErrorPrefix: string := "\U{274C} AI 錯誤：\n"

  /** The stored nickname (or the anonymous placeholder), overwritten by the profile name when the lookup succeeds. */
  function Nickname(stored: Option<string>, profileName: Option<string>): (r: string)
    ensures profileName.Some? ==> r == profileName.value
    ensures profileName.None? ==> r == OrElse(stored, AnonymousNickname)
  {
    if profileName.Some? then profileName.value else OrElse(stored, AnonymousNickname)
  }

  function NoticeText(nickname: string, row: UserState, keyword: string, msg: string): string {
    "\U{1F514} 真人通知：【" + nickname + "】正在呼叫專人。\n社區：" + OrElse(row.community, UnknownText)
    + "\n身份：" + OrElse(row.role, UnknownText) + "\n觸發字：" + keyword + "\n原文：" + msg
  }

  /** One push per agent, in list order, each recording whether its delivery went through. */
  function Notifications(agents: seq<string>, text: string, failed: set<string>): (r: seq<Action>)
    ensures |r| == |agents|
    ensures forall i :: 0 <= i < |agents| ==> r[i] == Push(agents[i], text, agents[i] !in failed)
  {
    if agents == [] then []
    else [Push(agents[0], text, agents[0] !in failed)] + Notifications(agents[1..], text, failed)
  }

  /** `new Date(last_human_interaction).getTime()`; a null column reads as the epoch. */
  function LastMs(row: UserState): int {
    if row.lastHumanInteraction.Some? then row.lastHumanInteraction.value else 0
  }

  /** A user in human mode whose last handover is more recent than the timeout: the message is left to the human. */
  predicate Absorbs(cfg: Settings, row: UserState, now: int) {
    row.isHumanMode && now - LastMs(row) < TimeoutMs(cfg.handoverTimeoutMinutes)
  }

  /** The text the AI step would reply with: the answer, or the error message behind the error marker. */
  function AiReplyText(outcome: AiOutcome): string {
    match outcome
    case Answered(text) => text
    case Failed(message) => AiErrorPrefix + message
  }

  /** The AI step: nothing when AI is off; otherwise the call, then a reply unless the resulting text is empty. */
  function AiActions(cfg: Settings, m: Inbound, env: Env): seq<Action> {
    if !cfg.isAiEnabled then []
    else
      var text := AiReplyText(env.ai);
      [CallAi(RequestFor(cfg, m.text, env.referenceFile))]
      + (if text != [] then [Reply(m.replyToken, Answer(text, []))] else [])
  }

  /** The handover on `keyword`: human mode stamped with the event's time, the acknowledgement, then one push per agent. */
  function Handover(db: Db, cfg: Settings, env: Env, m: Inbound, row: UserState, keyword: string): (Db, seq<Action>) {
    var nickname := Nickname(row.nickname, env.profileName);
    var next := row.(nickname := Some(nickname), isHumanMode := true, lastHumanInteraction := Some(env.now));
    (db.(users := db.users[m.userId := next]),
     [Reply(m.replyToken, Answer(HandoverAckText, []))]
     + Notifications(ParseAgentIds(cfg.agentUserIds), NoticeText(nickname, row, keyword, m.text), env.failedPushes))
  }

  /** No keyword: silence while a human is on it; otherwise human mode is cleared if it was set, and the AI step runs. */
  function Unmatched(db: Db, cfg: Settings, env: Env, m: Inbound, row: UserState): (Db, seq<Action>) {
    if Absorbs(cfg, row, env.now) then (db, [])
    else
      var db' := if row.isHumanMode then db.(users := db.users[m.userId := row.(isHumanMode := false)]) else db;
      (db', AiActions(cfg, m, env))
  }

  /** A registered user's message: handover on a keyword, otherwise the timeout check and the AI step. */
  function Served(db: Db, cfg: Settings, env: Env, m: Inbound, row: UserState): (Db, seq<Action>) {
    match MatchKeyword(ParseKeywords(cfg.handoverKeywords), m.text)
    case Some(keyword) => Handover(db, cfg, env, m, row, keyword)
    case None => Unmatched(db, cfg, env, m, row)
  }

  /** One event: filter, claim its delivery id, then onboarding or service. */
  function Process(db: Db, cfg: Settings, step: Step): (Db, seq<Action>) {
    match Accept(step.event)
    case None => (db, [])
    case Some(m) =>
      if m.eventId in db.processed then (db, [])
      else
        var claimed := db.(processed := db.processed + {m.eventId});
        var row := LookUp(db, m.userId);
        if Unregistered(row) then
          var onboarded := Register(row, m.text);
          (claimed.(users := claimed.users[m.userId := onboarded.0]), [Reply(m.replyToken, onboarded.1)])
        else
          Served(claimed, cfg, step.env, m, row.value)
  }

  /** A batch, one event after the other; the actions are concatenated in order. */
  function Run(db: Db, cfg: Settings, steps: seq<Step>): (Db, seq<Action>)
    decreases |steps|
  {
    if steps == [] then (db, [])
    else
      var before := Run(db, cfg, steps[..|steps| - 1]);
      var after := Process(before.0, cfg, steps[|steps| - 1]);
      (after.0, before.1 + after.1)
  }

  /** The delivery ids of the events of `steps` that pass the filter. */
  function AcceptedIds(steps: seq<Step>): set<string>
    decreases |steps|
  {
    if steps == [] then {}
    else
      var last := Accept(steps[|steps| - 1].event);
      AcceptedIds(steps[..|steps| - 1]) + (if last.Some? then {last.value.eventId} else {})
  }
}
