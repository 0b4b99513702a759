/**
 * The `user_states` row of one LINE user and the onboarding machine that
 * runs while the user is not registered: it asks for the community name,
 * then for one of five fixed roles, and marks the user registered once a
 * role is chosen exactly.
 */
module Registration {
  import opened Options
  import opened JsString

  /** The `pending_field` column: what the onboarding is waiting for. */
  datatype Pending = NoPending | AwaitCommunity | AwaitRole

  /** A `user_states` row; nullable columns are `Option`s and the time is in epoch milliseconds. */
  datatype UserState = UserState(
    isRegistered: bool,
    pendingField: Pending,
    community: Option<string>,
    role: Option<string>,
    nickname: Option<string>,
    isHumanMode: bool,
    lastHumanInteraction: Option<int>
  )

  /** A text reply, with the quick-reply buttons offered under it (each button sends its own label). */
  datatype Answer = Answer(text: string, options: seq<string>)

  /** The five roles a user may choose: committee member, community manager, community secretary, security guard, resident. */
  const Roles: seq<string> := ["管委會委員", "社區經理", "社區秘書", "保全", "住戶"]

  /** The row the first upsert creates; the columns it does not name take their defaults (false or null). */
  const FreshRow: UserState := UserState(false, AwaitCommunity, None, None, None, false, None)

  const WelcomeText: string := "歡迎使用國霖服務小幫手！\n請先完成快速登記，方便我們為您服務。\n\n請輸入您的社區名稱："
  const RolePromptText: string := "請點選下方按鈕選擇身份："

  function CommunityRecordedText(community: string): string {
    "社區已記錄為「" + community + "」\n請選擇您的身份："
  }

  /** The confirmation; a missing community is rendered as a template literal renders null. */
  function ConfirmationText(community: Option<string>, role: string): string {
    "\U{2705} 登記完成！\n社區：" + Show(community) + "\n身份：" + role + "\n\n有任何問題歡迎直接告訴我。"
  }

  /** `!userState?.is_registered`: no row, or a row not yet registered. */
  predicate Unregistered(row: Option<UserState>) {
    row.None? || !row.value.isRegistered
  }

  function CommunityOf(row: Option<UserState>): Option<string> {
    if row.Some? then row.value.community else None
  }

  function RoleOf(row: Option<UserState>): Option<string> {
    if row.Some? then row.value.role else None
  }

  /**
   * One onboarding step for message `msg` (already trimmed, non-empty):
   * the new row and the single reply. A row waiting for the community
   * stores the message as the community; a row waiting for the role
   * accepts only a message equal to one of `Roles`; anything else (no row,
   * nothing pending) starts the onboarding.
   */
  function Register(row: Option<UserState>, msg: string): (r: (UserState, Answer))
    requires Unregistered(row)
    ensures r.0.isRegistered <==> row.Some? && row.value.pendingField == AwaitRole && msg in Roles
    ensures r.0.isRegistered ==> r.0.role == Some(msg) && r.0.pendingField == NoPending
    ensures !r.0.isRegistered ==> r.0.pendingField != NoPending
    ensures r.0.role != RoleOf(row) ==> r.0.isRegistered
    ensures r.0.community != CommunityOf(row) ==>
              row.Some? && row.value.pendingField == AwaitCommunity && r.0.community == Some(msg)
    ensures row.Some? ==> r.0.nickname == row.value.nickname && r.0.isHumanMode == row.value.isHumanMode
                          && r.0.lastHumanInteraction == row.value.lastHumanInteraction
    ensures row.None? ==> r.0 == FreshRow
    ensures r.1.options == [] || r.1.options == Roles
    ensures row.Some? && row.value.pendingField == AwaitCommunity ==>
              r.0.community == Some(msg) && r.0.pendingField == AwaitRole && r.0.role == row.value.role
              && r.1 == Answer(CommunityRecordedText(msg), Roles)
    ensures row.Some? && row.value.pendingField == AwaitRole && msg !in Roles ==>
              r == (row.value, Answer(RolePromptText, Roles))
    ensures r.0.isRegistered ==>
              r.0.community == row.value.community && r.1 == Answer(ConfirmationText(row.value.community, msg), [])
    ensures Stage(row) == 0 ==>
              r.0.pendingField == AwaitCommunity && r.0.community == CommunityOf(row) && r.0.role == RoleOf(row)
              && r.1 == Answer(WelcomeText, [])
  {
    if row.Some? && row.value.pendingField == AwaitCommunity then
      (row.value.(community := Some(msg), pendingField := AwaitRole), Answer(CommunityRecordedText(msg), Roles))
    else if row.Some? && row.value.pendingField == AwaitRole then
      if msg in Roles then
        (row.value.(role := Some(msg), pendingField := NoPending, isRegistered := true),
         Answer(ConfirmationText(row.value.community, msg), []))
      else
        (row.value, Answer(RolePromptText, Roles))
    else if row.None? then
      (FreshRow, Answer(WelcomeText, []))
    else
      (row.value.(isRegistered := false, pendingField := AwaitCommunity), Answer(WelcomeText, []))
  }

  /** How far the onboarding has got: not started, awaiting the community, awaiting the role, registered. */
  function Stage(row: Option<UserState>): nat {
    if row.None? then 0
    else if row.value.isRegistered then 3
    else match row.value.pendingField
      case NoPending => 0
      case AwaitCommunity => 1
      case AwaitRole => 2
  }

  /** Each message moves the onboarding exactly one stage forward, except a wrong role answer, which changes nothing. */
  lemma RegisterAdvances(row: Option<UserState>, msg: string)
    requires Unregistered(row)
    ensures var next := Some(Register(row, msg).0);
      Stage(next) == Stage(row) + 1 || (Stage(row) == 2 && msg !in Roles && next == row)
  {
  }

  /**
   * A new user who sends any message, then a community name, then a role
   * is registered with that community and role, and the last reply
   * confirms both.
   */
  lemma Onboarding(first: string, community: string, role: string)
    requires role in Roles
    ensures var s1 := Register(None, first);
            var s2 := Register(Some(s1.0), community);
            var s3 := Register(Some(s2.0), role);
            && s1.0.pendingField == AwaitCommunity && s1.1.text == WelcomeText
            && s2.0.pendingField == AwaitRole && s2.0.community == Some(community) && s2.1.options == Roles
            && s3.0.isRegistered && s3.0.community == Some(community) && s3.0.role == Some(role)
            && s3.1.text == ConfirmationText(Some(community), role)
  {
  }
}
