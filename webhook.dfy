/**
 * The webhook handler as the program runs it: a loop over the events of
 * one delivery that updates the `processed_events` ledger and the
 * `user_states` rows in place and emits replies, pushes and AI calls in
 * order. Each method is proved to do exactly what module Pipeline
 * specifies.
 */
module Webhook {
  import opened Options
  import opened JsString
  import opened Config
  import opened Registration
  import opened AiRequest
  import opened Pipeline
  import opened PipelineProperties

  /** The two tables the handler writes, as it sees them during one invocation. */
  class Store {
    var processed: set<string>
    var users: map<string, UserState>

    function Snapshot(): Db
      reads this
    {
      Db(processed, users)
    }

    constructor (db: Db)
      ensures Snapshot() == db
    {
      processed := db.processed;
      users := db.users;
    }

    /** Insert into the ledger, whose `event_id` is unique: the insert fails exactly when the id is already there. */
    method InsertEvent(eventId: string) returns (inserted: bool)
      modifies this
      ensures inserted <==> eventId !in old(processed)
      ensures processed == old(processed) + {eventId} && users == old(users)
    {
      inserted := eventId !in processed;
      processed := processed + {eventId};
    }

    /** `select('*').eq('line_user_id', user).single()`: the row, or null when there is none. */
    method SelectUser(user: string) returns (row: Option<UserState>)
      ensures row.Some? <==> user in users
      ensures row.Some? ==> row.value == users[user]
    {
      row := if user in users then Some(users[user]) else None;
    }

    /** An upsert or update of the user's row, given as the whole row it leaves behind. */
    method SaveUser(user: string, row: UserState)
      modifies this
      ensures users == old(users)[user := row] && processed == old(processed)
    {
      users := users[user := row];
    }
  }

  /** Push the notice to every agent in turn; a failed push is swallowed and the loop goes on. */
  method NotifyAgents(agents: seq<string>, text: string, failed: set<string>) returns (out: seq<Action>)
    ensures |out| == |agents|
    ensures forall i :: 0 <= i < |agents| ==> out[i] == Push(agents[i], text, agents[i] !in failed)
    ensures out == Notifications(agents, text, failed)
  {
    out := [];
    for i := 0 to |agents|
      invariant |out| == i
      invariant forall j :: 0 <= j < i ==> out[j] == Push(agents[j], text, agents[j] !in failed)
    {
      var delivered := agents[i] !in failed;
      out := out + [Push(agents[i], text, delivered)];
    }
    var expected := Notifications(agents, text, failed);
    assert forall i :: 0 <= i < |agents| ==> out[i] == expected[i];
  }

  /** The body of the event loop for one event; every `return` is a `continue` of the source loop. */
  method HandleEvent(store: Store, cfg: Settings, step: Step) returns (out: seq<Action>)
    modifies store
    ensures (store.Snapshot(), out) == Process(old(store.Snapshot()), cfg, step)
  {
    out := [];
    var accepted := Accept(step.event);
    if accepted.None? {
      FilteredIsSkipped(old(store.Snapshot()), cfg, step);
      return;
    }
    var m := accepted.value;

    var inserted := store.InsertEvent(m.eventId);
    if !inserted {
      AddPresent(old(store.processed), m.eventId);
      DuplicateIsSkipped(old(store.Snapshot()), cfg, step);
      return;
    }

    var row := store.SelectUser(m.userId);
    if Unregistered(row) {
      out := Onboard(store, m, row);
      OnboardingGates(old(store.Snapshot()), cfg, step);
      return;
    }

    out := ServeRegistered(store, cfg, step.env, m, row.value);
    ProcessServes(old(store.Snapshot()), cfg, step);
  }

  /** The onboarding branch: one step of the registration machine and its single reply. */
  method Onboard(store: Store, m: Inbound, row: Option<UserState>) returns (out: seq<Action>)
    requires Unregistered(row)
    requires row.Some? ==> m.userId in store.users && store.users[m.userId] == row.value
    modifies store
    ensures store.processed == old(store.processed)
    ensures store.users == old(store.users)[m.userId := Register(row, m.text).0]
    ensures out == [Reply(m.replyToken, Register(row, m.text).1)]
  {
    if row.Some? && row.value.pendingField == AwaitCommunity {
      store.SaveUser(m.userId, row.value.(community := Some(m.text), pendingField := AwaitRole));
      out := [Reply(m.replyToken, Answer(CommunityRecordedText(m.text), Roles))];
      return;
    }
    if row.Some? && row.value.pendingField == AwaitRole {
      if m.text !in Roles {
        assert store.users == store.users[m.userId := row.value];
        out := [Reply(m.replyToken, Answer(RolePromptText, Roles))];
        return;
      }
      store.SaveUser(m.userId, row.value.(role := Some(m.text), pendingField := NoPending, isRegistered := true));
      out := [Reply(m.replyToken, Answer(ConfirmationText(row.value.community, m.text), []))];
      return;
    }
    var started := if row.Some? then row.value.(isRegistered := false, pendingField := AwaitCommunity) else FreshRow;
    store.SaveUser(m.userId, started);
    out := [Reply(m.replyToken, Answer(WelcomeText, []))];
  }

  /** Keyword handover, then the human-mode check, then the AI call, for a registered user. */
  method ServeRegistered(store: Store, cfg: Settings, env: Env, m: Inbound, state: UserState) returns (out: seq<Action>)
    modifies store
    ensures (store.Snapshot(), out) == Served(old(store.Snapshot()), cfg, env, m, state)
  {
    var keywords := ParseKeywords(cfg.handoverKeywords);
    var matched := MatchKeyword(keywords, m.text);
    if matched.Some? {
      out := HandOver(store, cfg, env, m, state, matched.value);
    } else {
      out := ServeUnmatched(store, cfg, env, m, state);
    }
  }

  /** The handover branch: the row update, the acknowledgement and the loop over the agents. */
  method HandOver(store: Store, cfg: Settings, env: Env, m: Inbound, state: UserState, keyword: string)
    returns (out: seq<Action>)
    modifies store
    ensures (store.Snapshot(), out) == Handover(old(store.Snapshot()), cfg, env, m, state, keyword)
  {
    var nickname := OrElse(state.nickname, AnonymousNickname);
    if env.profileName.Some? {
      nickname := env.profileName.value;
    }
    assert nickname == Nickname(state.nickname, env.profileName);
    store.SaveUser(m.userId, state.(nickname := Some(nickname), isHumanMode := true,
                                    lastHumanInteraction := Some(env.now)));
    out := [Reply(m.replyToken, Answer(HandoverAckText, []))];
    var agents := ParseAgentIds(cfg.agentUserIds);
    var pushes := NotifyAgents(agents, NoticeText(nickname, state, keyword, m.text), env.failedPushes);
    out := out + pushes;
  }

  /** No keyword: the human-mode timeout check, then the AI call and its reply. */
  method ServeUnmatched(store: Store, cfg: Settings, env: Env, m: Inbound, state: UserState) returns (out: seq<Action>)
    modifies store
    ensures (store.Snapshot(), out) == Unmatched(old(store.Snapshot()), cfg, env, m, state)
  {
    out := [];
    if state.isHumanMode {
      if env.now - LastMs(state) < TimeoutMs(cfg.handoverTimeoutMinutes) {
        return;
      }
      store.SaveUser(m.userId, state.(isHumanMode := false));
    }

    if !cfg.isAiEnabled {
      return;
    }
    out := [CallAi(RequestFor(cfg, m.text, env.referenceFile))];
    var aiResult := "";
    match env.ai {
      case Answered(text) => aiResult := text;
      case Failed(message) => aiResult := AiErrorPrefix + message;
    }
    assert aiResult == AiReplyText(env.ai);
    if aiResult != [] {
      out := out + [Reply(m.replyToken, Answer(aiResult, []))];
    }
    assert out == AiActions(cfg, m, env);
  }

  /** The event loop: every event of the delivery, in order. */
  method HandleEvents(store: Store, cfg: Settings, steps: seq<Step>) returns (out: seq<Action>)
    modifies store
    ensures (store.Snapshot(), out) == Run(old(store.Snapshot()), cfg, steps)
  {
    out := [];
    for i := 0 to |steps|
      invariant (store.Snapshot(), out) == Run(old(store.Snapshot()), cfg, steps[..i])
    {
      assert steps[..i + 1][..i] == steps[..i];
      var more := HandleEvent(store, cfg, steps[i]);
      out := out + more;
    }
    assert steps[..|steps|] == steps;
  }

  datatype Response = Response(statusCode: int, body: string)

  /**
   * The HTTP entry point. The settings row (None when the fetch fails) and
   * the outcome of the signature check are supplied; the body is taken to
   * parse into `steps`.
   */
  method Serve(store: Store, httpMethod: string, settings: Option<Settings>, signatureValid: bool, steps: seq<Step>)
    returns (response: Response, out: seq<Action>)
    modifies store
    ensures httpMethod != "POST" ==> response == Response(405, "Method Not Allowed")
    ensures httpMethod == "POST" && settings.None? ==> response == Response(500, "Failed to fetch settings")
    ensures httpMethod == "POST" && settings.Some? && !signatureValid ==> response == Response(401, "Invalid signature")
    ensures response.statusCode != 200 ==> out == [] && store.Snapshot() == old(store.Snapshot())
    ensures response.statusCode == 200 <==> httpMethod == "POST" && settings.Some? && signatureValid
    ensures response.statusCode == 200 ==>
              response.body == "OK" && (store.Snapshot(), out) == Run(old(store.Snapshot()), settings.value, steps)
  {
    out := [];
    if httpMethod != "POST" {
      return Response(405, "Method Not Allowed"), [];
    }
    if settings.None? {
      return Response(500, "Failed to fetch settings"), [];
    }
    if !signatureValid {
      return Response(401, "Invalid signature"), [];
    }
    out := HandleEvents(store, settings.value, steps);
    response := Response(200, "OK");
  }
}
