/**
 * What the event pipeline guarantees: filtered and duplicate events have
 * no effect, a replayed batch has no effect, onboarding gates everything
 * else, handover and timeout behave as configured, and the AI step's
 * outcome decides the reply.
 */
module PipelineProperties {
  import opened Options
  import opened JsString
  import opened Config
  import opened Registration
  import opened AiRequest
  import opened Pipeline

  /** Adding an element a set already holds leaves it unchanged. */
  lemma AddPresent(ids: set<string>, id: string)
    requires id in ids
    ensures ids + {id} == ids
  {
  }

  /** The sender of an accepted event, or none. */
  function SenderOf(s: Step): Option<string> {
    if Accept(s.event).Some? then Some(Accept(s.event).value.userId) else None
  }

  /** A new event from a registered sender: its id is claimed and the service step runs. */
  lemma ProcessServes(db: Db, cfg: Settings, s: Step)
    requires Accept(s.event).Some? && Accept(s.event).value.eventId !in db.processed
    requires !Unregistered(LookUp(db, Accept(s.event).value.userId))
    ensures var m := Accept(s.event).value;
      Process(db, cfg, s) == Served(db.(processed := db.processed + {m.eventId}), cfg, s.env, m, db.users[m.userId])
  {
  }

  /** An event the filter rejects changes neither the ledger nor any row and produces no action. */
  lemma FilteredIsSkipped(db: Db, cfg: Settings, s: Step)
    requires Accept(s.event).None?
    ensures Process(db, cfg, s) == (db, [])
  {
  }

  /** An event whose delivery id is already in the ledger changes nothing and produces no action. */
  lemma DuplicateIsSkipped(db: Db, cfg: Settings, s: Step)
    requires Accept(s.event).Some? && Accept(s.event).value.eventId in db.processed
    ensures Process(db, cfg, s) == (db, [])
  {
  }

  /** The ledger after an event is the ledger before plus the event's id when it passed the filter. */
  lemma ProcessLedger(db: Db, cfg: Settings, s: Step)
    ensures Process(db, cfg, s).0.processed ==
              db.processed + (if Accept(s.event).Some? then {Accept(s.event).value.eventId} else {})
  {
    var acc := Accept(s.event);
    var after := Process(db, cfg, s).0.processed;
    if acc.None? {
      FilteredIsSkipped(db, cfg, s);
      assert after == db.processed;
      assert db.processed + {} == db.processed;
    } else if acc.value.eventId in db.processed {
      DuplicateIsSkipped(db, cfg, s);
      assert after == db.processed;
      AddPresent(db.processed, acc.value.eventId);
    } else if Unregistered(LookUp(db, acc.value.userId)) {
      OnboardingGates(db, cfg, s);
      assert after == db.processed + {acc.value.eventId};
    } else {
      var m := acc.value;
      var claimed := db.(processed := db.processed + {m.eventId});
      ProcessServes(db, cfg, s);
      ServedFrame(claimed, cfg, s.env, m, db.users[m.userId]);
      assert Process(db, cfg, s).0 == Served(claimed, cfg, s.env, m, db.users[m.userId]).0;
      assert after == claimed.processed;
    }
  }

  /** The rows after an event are the rows before, or the rows before with the sender's row (re)written. */
  lemma ProcessFrame(db: Db, cfg: Settings, s: Step)
    ensures var users' := Process(db, cfg, s).0.users;
      users' == db.users
      || (Accept(s.event).Some? && Accept(s.event).value.userId in users'
          && users' == db.users[Accept(s.event).value.userId := users'[Accept(s.event).value.userId]])
  {
    var acc := Accept(s.event);
    if acc.None? {
      FilteredIsSkipped(db, cfg, s);
    } else if acc.value.eventId in db.processed {
      DuplicateIsSkipped(db, cfg, s);
    } else if Unregistered(LookUp(db, acc.value.userId)) {
      var u := acc.value.userId;
      var next := Register(LookUp(db, u), acc.value.text).0;
      OnboardingGates(db, cfg, s);
      assert Process(db, cfg, s).0.users == db.users[u := next];
    } else {
      var m := acc.value;
      var claimed := db.(processed := db.processed + {m.eventId});
      ProcessServes(db, cfg, s);
      ServedFrame(claimed, cfg, s.env, m, db.users[m.userId]);
      assert Process(db, cfg, s).0 == Served(claimed, cfg, s.env, m, db.users[m.userId]).0;
    }
  }

  /** Only the sender's row can change, and only the sender can gain a row. */
  lemma ProcessTouchesOnlySender(db: Db, cfg: Settings, s: Step)
    ensures var users' := Process(db, cfg, s).0.users;
      && (forall u :: u in db.users ==> u in users')
      && (forall u :: u in users' && Some(u) != SenderOf(s) ==> u in db.users && users'[u] == db.users[u])
  {
    ProcessFrame(db, cfg, s);
    UpdateFrame(db.users, Process(db, cfg, s).0.users, SenderOf(s));
  }

  /** A map left as it was, or changed at key `k` only, keeps every key and every value away from `k`. */
  lemma UpdateFrame(before: map<string, UserState>, after: map<string, UserState>, k: Option<string>)
    requires after == before || (k.Some? && k.value in after && after == before[k.value := after[k.value]])
    ensures forall u :: u in before ==> u in after
    ensures forall u :: u in after && Some(u) != k ==> u in before && after[u] == before[u]
  {
  }

  /** The service step keeps the ledger and rewrites at most the sender's row. */
  lemma ServedFrame(db: Db, cfg: Settings, env: Env, m: Inbound, row: UserState)
    ensures var db' := Served(db, cfg, env, m, row).0;
      db'.processed == db.processed
      && (db'.users == db.users || (m.userId in db'.users && db'.users == db.users[m.userId := db'.users[m.userId]]))
      && (db'.users != db.users ==> db'.users[m.userId].isRegistered == row.isRegistered)
  {
    var matched := MatchKeyword(ParseKeywords(cfg.handoverKeywords), m.text);
    if matched.Some? {
      assert Served(db, cfg, env, m, row) == Handover(db, cfg, env, m, row, matched.value);
    } else {
      assert Served(db, cfg, env, m, row) == Unmatched(db, cfg, env, m, row);
    }
  }

  /**
   * While the sender is unregistered, a new event runs exactly one
   * onboarding step: the row becomes the step's row and the step's answer
   * is the only action, so no handover, push or AI call can happen.
   */
  lemma OnboardingGates(db: Db, cfg: Settings, s: Step)
    requires Accept(s.event).Some? && Accept(s.event).value.eventId !in db.processed
    requires Unregistered(LookUp(db, Accept(s.event).value.userId))
    ensures var m := Accept(s.event).value;
      var r := Register(LookUp(db, m.userId), m.text);
      Process(db, cfg, s) == (Db(db.processed + {m.eventId}, db.users[m.userId := r.0]), [Reply(m.replyToken, r.1)])
  {
  }

  /** A user becomes registered only by answering the role question with one of the five roles, exactly. */
  lemma RegisteredOnlyByRole(db: Db, cfg: Settings, s: Step, u: string)
    requires Unregistered(LookUp(db, u))
    requires u in Process(db, cfg, s).0.users && Process(db, cfg, s).0.users[u].isRegistered
    ensures Accept(s.event).Some? && Accept(s.event).value.userId == u
    ensures u in db.users && db.users[u].pendingField == AwaitRole
    ensures Accept(s.event).value.text in Roles && Process(db, cfg, s).0.users[u].role == Some(Accept(s.event).value.text)
  {
    ProcessTouchesOnlySender(db, cfg, s);
  }

  /** No event un-registers a registered user. */
  lemma RegisteredStays(db: Db, cfg: Settings, s: Step, u: string)
    requires u in db.users && db.users[u].isRegistered
    ensures u in Process(db, cfg, s).0.users && Process(db, cfg, s).0.users[u].isRegistered
  {
    var acc := Accept(s.event);
    var users' := Process(db, cfg, s).0.users;
    if acc.None? {
      FilteredIsSkipped(db, cfg, s);
      assert users' == db.users;
    } else if acc.value.eventId in db.processed {
      DuplicateIsSkipped(db, cfg, s);
      assert users' == db.users;
    } else if acc.value.userId == u {
      var m := acc.value;
      var claimed := db.(processed := db.processed + {m.eventId});
      assert !Unregistered(LookUp(db, u));
      ProcessServes(db, cfg, s);
      ServedFrame(claimed, cfg, s.env, m, db.users[u]);
      assert users' == Served(claimed, cfg, s.env, m, db.users[u]).0.users;
    } else {
      var v := acc.value.userId;
      ProcessFrame(db, cfg, s);
      if users' != db.users {
        assert users' == db.users[v := users'[v]];
        assert users'[u] == db.users[u];
      }
    }
  }

  /** The handover's actions: the acknowledgement first, then exactly one push per agent in order, and no AI call. */
  lemma HandoverActions(token: string, agents: seq<string>, text: string, failed: set<string>)
    ensures var out := [Reply(token, Answer(HandoverAckText, []))] + Notifications(agents, text, failed);
      && |out| == 1 + |agents|
      && out[0] == Reply(token, Answer(HandoverAckText, []))
      && (forall i :: 0 <= i < |agents| ==> out[i + 1] == Push(agents[i], text, agents[i] !in failed))
      && (forall i :: 0 <= i < |out| ==> !out[i].CallAi?)
  {
    var pushes := Notifications(agents, text, failed);
    var out := [Reply(token, Answer(HandoverAckText, []))] + pushes;
    forall i | 0 <= i < |out| ensures !out[i].CallAi? {
      if i > 0 { assert out[i] == pushes[i - 1]; }
    }
  }

  /**
   * A registered user's message that hits a handover keyword: the row is
   * put in human mode stamped with the event's time, one acknowledgement
   * is sent, and one push is attempted for every parsed agent id, delivered
   * or not, with no AI call.
   */
  lemma HandoverOnKeyword(db: Db, cfg: Settings, s: Step)
    requires Accept(s.event).Some? && Accept(s.event).value.eventId !in db.processed
    requires !Unregistered(LookUp(db, Accept(s.event).value.userId))
    requires MatchKeyword(ParseKeywords(cfg.handoverKeywords), Accept(s.event).value.text).Some?
    ensures var m := Accept(s.event).value;
      var db' := Process(db, cfg, s).0;
      var out := Process(db, cfg, s).1;
      var row := db.users[m.userId];
      var agents := ParseAgentIds(cfg.agentUserIds);
      && db'.users[m.userId] == row.(nickname := Some(Nickname(row.nickname, s.env.profileName)),
                                     isHumanMode := true, lastHumanInteraction := Some(s.env.now))
      && |out| == 1 + |agents|
      && out[0] == Reply(m.replyToken, Answer(HandoverAckText, []))
      && (forall i :: 0 <= i < |agents| ==>
            (out[i + 1].Push? && out[i + 1].to == agents[i] && out[i + 1].delivered == (agents[i] !in s.env.failedPushes)))
      && (forall i :: 0 <= i < |out| ==> !out[i].CallAi?)
  {
    var m := Accept(s.event).value;
    var claimed := db.(processed := db.processed + {m.eventId});
    var row := db.users[m.userId];
    var kw := MatchKeyword(ParseKeywords(cfg.handoverKeywords), m.text).value;
    ProcessServes(db, cfg, s);
    assert Process(db, cfg, s) == Handover(claimed, cfg, s.env, m, row, kw);
    var nick := Nickname(row.nickname, s.env.profileName);
    HandoverActions(m.replyToken, ParseAgentIds(cfg.agentUserIds), NoticeText(nick, row, kw, m.text), s.env.failedPushes);
  }

  /** A message from a user in human mode within the timeout, with no keyword, is absorbed: only its id is recorded. */
  lemma AbsorbedWithinTimeout(db: Db, cfg: Settings, s: Step)
    requires Accept(s.event).Some? && Accept(s.event).value.eventId !in db.processed
    requires !Unregistered(LookUp(db, Accept(s.event).value.userId))
    requires MatchKeyword(ParseKeywords(cfg.handoverKeywords), Accept(s.event).value.text).None?
    requires var row := db.users[Accept(s.event).value.userId];
      row.isHumanMode && s.env.now - LastMs(row) < TimeoutMs(cfg.handoverTimeoutMinutes)
    ensures Process(db, cfg, s) == (db.(processed := db.processed + {Accept(s.event).value.eventId}), [])
  {
    var m := Accept(s.event).value;
    var claimed := db.(processed := db.processed + {m.eventId});
    ProcessServes(db, cfg, s);
    assert Process(db, cfg, s) == Unmatched(claimed, cfg, s.env, m, db.users[m.userId]);
  }

  /**
   * A message from a registered sender that hits no keyword and is not left
   * to a human (human mode off, or its timeout run out) goes to the AI step:
   * the actions are exactly the AI step's, and the only row change is that
   * human mode is switched off when it was on.
   */
  lemma AiStepUnlessAbsorbed(db: Db, cfg: Settings, s: Step)
    requires Accept(s.event).Some? && Accept(s.event).value.eventId !in db.processed
    requires !Unregistered(LookUp(db, Accept(s.event).value.userId))
    requires MatchKeyword(ParseKeywords(cfg.handoverKeywords), Accept(s.event).value.text).None?
    requires !Absorbs(cfg, db.users[Accept(s.event).value.userId], s.env.now)
    ensures var m := Accept(s.event).value;
      var row := db.users[m.userId];
      var claimed := db.(processed := db.processed + {m.eventId});
      Process(db, cfg, s)
        == (if row.isHumanMode then claimed.(users := db.users[m.userId := row.(isHumanMode := false)]) else claimed,
            AiActions(cfg, m, s.env))
  {
    var m := Accept(s.event).value;
    var claimed := db.(processed := db.processed + {m.eventId});
    var row := db.users[m.userId];
    ProcessServes(db, cfg, s);
    assert Process(db, cfg, s) == Unmatched(claimed, cfg, s.env, m, row);
  }

  /** Once the timeout has run out, human mode is switched off and the same message goes to the AI step. */
  lemma RevertedAfterTimeout(db: Db, cfg: Settings, s: Step)
    requires Accept(s.event).Some? && Accept(s.event).value.eventId !in db.processed
    requires !Unregistered(LookUp(db, Accept(s.event).value.userId))
    requires MatchKeyword(ParseKeywords(cfg.handoverKeywords), Accept(s.event).value.text).None?
    requires var row := db.users[Accept(s.event).value.userId];
      row.isHumanMode && s.env.now - LastMs(row) >= TimeoutMs(cfg.handoverTimeoutMinutes)
    ensures var m := Accept(s.event).value;
      Process(db, cfg, s).0.users[m.userId] == db.users[m.userId].(isHumanMode := false)
      && Process(db, cfg, s).1 == AiActions(cfg, m, s.env)
  {
    var m := Accept(s.event).value;
    var claimed := db.(processed := db.processed + {m.eventId});
    var row := db.users[m.userId];
    ProcessServes(db, cfg, s);
    assert Process(db, cfg, s) == Unmatched(claimed, cfg, s.env, m, row);
    assert !Absorbs(cfg, row, s.env.now);
    assert Unmatched(claimed, cfg, s.env, m, row)
        == (claimed.(users := claimed.users[m.userId := row.(isHumanMode := false)]), AiActions(cfg, m, s.env));
  }

  /**
   * With the default timeout of 30 minutes, a message 29:59 after the
   * handover is absorbed and one 30:01 after it reaches the AI step.
   */
  lemma DefaultTimeoutBoundary(cfg: Settings, row: UserState, t: int)
    requires cfg.handoverTimeoutMinutes.None? && row.isHumanMode && row.lastHumanInteraction == Some(t)
    ensures Absorbs(cfg, row, t + 29 * 60000 + 59000)
    ensures !Absorbs(cfg, row, t + 30 * 60000 + 1000)
  {
  }

  /** AI switched off: no call and no reply. */
  lemma AiDisabledIsSilent(cfg: Settings, m: Inbound, env: Env)
    requires !cfg.isAiEnabled
    ensures AiActions(cfg, m, env) == []
  {
  }

  /** A failing AI call is reported to the user in exactly one reply that starts with the error marker. */
  lemma AiErrorIsReported(cfg: Settings, m: Inbound, env: Env)
    requires cfg.isAiEnabled && env.ai.Failed?
    ensures var out := AiActions(cfg, m, env);
      |out| == 2 && out[0].CallAi? && out[1].Reply? && out[1].replyToken == m.replyToken
      && StartsWith(out[1].answer.text, AiErrorPrefix)
  {
    var text := AiReplyText(env.ai);
    assert text[..|AiErrorPrefix|] == AiErrorPrefix;
  }

  /** An AI answer is replied exactly when it is non-empty. */
  lemma AiAnswerReplied(cfg: Settings, m: Inbound, env: Env)
    requires cfg.isAiEnabled && env.ai.Answered?
    ensures var out := AiActions(cfg, m, env);
      out[0] == CallAi(RequestFor(cfg, m.text, env.referenceFile))
      && (env.ai.text == [] ==> |out| == 1)
      && (env.ai.text != [] ==> out[1..] == [Reply(m.replyToken, Answer(env.ai.text, []))])
  {
  }

  /** The ledger after a batch is the ledger before plus the ids of its accepted events. */
  lemma {:induction false} RunLedger(db: Db, cfg: Settings, steps: seq<Step>)
    ensures Run(db, cfg, steps).0.processed == db.processed + AcceptedIds(steps)
    decreases |steps|
  {
    if steps != [] {
      var prefix := steps[..|steps| - 1];
      RunLedger(db, cfg, prefix);
      ProcessLedger(Run(db, cfg, prefix).0, cfg, steps[|steps| - 1]);
    }
  }

  /** A batch whose every accepted id is already recorded changes nothing and produces no action. */
  lemma {:induction false} RunAllSeen(db: Db, cfg: Settings, steps: seq<Step>)
    requires AcceptedIds(steps) <= db.processed
    ensures Run(db, cfg, steps) == (db, [])
    decreases |steps|
  {
    if steps != [] {
      var prefix, last := steps[..|steps| - 1], steps[|steps| - 1];
      LastAcceptedId(steps);
      RunAllSeen(db, cfg, prefix);
      SeenIsSkipped(db, cfg, last);
      var none: seq<Action> := [];
      assert none + none == none;
    }
  }

  /** The accepted ids of a batch are those of all but its last event, and the last event's id when it is accepted. */
  lemma LastAcceptedId(steps: seq<Step>)
    requires steps != []
    ensures var acc := Accept(steps[|steps| - 1].event);
      && AcceptedIds(steps[..|steps| - 1]) <= AcceptedIds(steps)
      && (acc.Some? ==> acc.value.eventId in AcceptedIds(steps))
  {
  }

  /** An event that is filtered out or whose id is recorded changes nothing and produces no action. */
  lemma SeenIsSkipped(db: Db, cfg: Settings, s: Step)
    requires Accept(s.event).Some? ==> Accept(s.event).value.eventId in db.processed
    ensures Process(db, cfg, s) == (db, [])
  {
    if Accept(s.event).Some? {
      DuplicateIsSkipped(db, cfg, s);
    } else {
      FilteredIsSkipped(db, cfg, s);
    }
  }

  /** The accepted ids depend only on the events, not on the world's answers. */
  lemma {:induction false} AcceptedIdsOfEvents(steps: seq<Step>, again: seq<Step>)
    requires |again| == |steps| && forall i :: 0 <= i < |steps| ==> again[i].event == steps[i].event
    ensures AcceptedIds(again) == AcceptedIds(steps)
    decreases |steps|
  {
    if steps != [] {
      var n := |steps|;
      var p, q := steps[..n - 1], again[..n - 1];
      forall i | 0 <= i < n - 1 ensures q[i].event == p[i].event {
        assert q[i] == again[i] && p[i] == steps[i];
      }
      AcceptedIdsOfEvents(p, q);
      assert again[n - 1].event == steps[n - 1].event;
    }
  }

  /**
   * Redelivering a batch, whatever the outside world answers the second
   * time, has no effect: every accepted id was recorded by the first run.
   */
  lemma ReplayIsNoOp(db: Db, cfg: Settings, steps: seq<Step>, again: seq<Step>)
    requires |again| == |steps| && forall i :: 0 <= i < |steps| ==> again[i].event == steps[i].event
    ensures var first := Run(db, cfg, steps).0;
      Run(first, cfg, again) == (first, [])
  {
    var first := Run(db, cfg, steps).0;
    RunLedger(db, cfg, steps);
    AcceptedIdsOfEvents(steps, again);
    assert AcceptedIds(again) <= first.processed;
    RunAllSeen(first, cfg, again);
  }
}
