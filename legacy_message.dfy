/**
 * The older message model, whose `MessageType` is declared as an 8-bit bitflags
 * set although its constants are plain codes (0, 1, 2, 3, ...). Truncation keeps
 * every bit that occurs in some declared constant.
 */
module LegacyMessages {
  import opened Bitflags

  /** The declared constants of the bitflags `MessageType`. */
  datatype MessageTypeFlag =
    | Default
    | RecipientAdd
    | RecipientRemove
    | Call
    | ChannelNameChange
    | ChannelIconChange
    | ChannelPinnedMessage
    | UserJoin
    | GuildBoost
    | GuildBoostTier1
    | GuildBoostTier2
    | GuildBoostTier3
    | ChannelFollowAdd
    | GuildDiscoveryDisqualified
    | GuildDiscoveryRequalified
    | GuildDiscoveryGracePeriodInitialWarning
    | GuildDiscoveryGracePeriodFinalWarning
    | ThreadCreated
    | Reply
    | ChatInputCommand
    | ThreadStarterMessage
    | GuildInviteReminder
    | ContextMenuCommand
    | AutoModerationAction
    | RoleSubscriptionPurchase
    | InteractionPremiumUpsell
    | StageStart
    | StageEnd
    | StageSpeaker
    | StageTopic
    | GuildApplicationPremiumSubscription
    | GuildIncidentAlertModeEnabled
    | GuildIncidentAlertModeDisabled
    | GuildIncidentReportRaid
    | GuildIncidentReportFalseAlarm
    | PurchaseNotification
    | PollResult

  /** The constant's value. */
  function Value(t: MessageTypeFlag): (r: bv8)
    ensures r < 0x40
  {
    match t
    case Default => 0
    case RecipientAdd => 1
    case RecipientRemove => 2
    case Call => 3
    case ChannelNameChange => 4
    case ChannelIconChange => 5
    case ChannelPinnedMessage => 6
    case UserJoin => 7
    case GuildBoost => 8
    case GuildBoostTier1 => 9
    case GuildBoostTier2 => 10
    case GuildBoostTier3 => 11
    case ChannelFollowAdd => 12
    case GuildDiscoveryDisqualified => 14
    case GuildDiscoveryRequalified => 15
    case GuildDiscoveryGracePeriodInitialWarning => 16
    case GuildDiscoveryGracePeriodFinalWarning => 17
    case ThreadCreated => 18
    case Reply => 19
    case ChatInputCommand => 20
    case ThreadStarterMessage => 21
    case GuildInviteReminder => 22
    case ContextMenuCommand => 23
    case AutoModerationAction => 24
    case RoleSubscriptionPurchase => 25
    case InteractionPremiumUpsell => 26
    case StageStart => 27
    case StageEnd => 28
    case StageSpeaker => 29
    case StageTopic => 31
    case GuildApplicationPremiumSubscription => 32
    case GuildIncidentAlertModeEnabled => 36
    case GuildIncidentAlertModeDisabled => 37
    case GuildIncidentReportRaid => 38
    case GuildIncidentReportFalseAlarm => 39
    case PurchaseNotification => 44
    case PollResult => 46
  }

  /** `MessageType::all()`: the union of the declared constants, in declaration order. */
  const MESSAGE_TYPE_ALL: bv8 :=
    0 | 1 | 2 | 3 | 4 | 5 | 6 | 7 | 8 | 9 | 10 | 11 | 12 | 14 | 15 | 16 | 17 | 18 | 19 | 20 | 21 | 22 | 23 | 24 | 25 | 26 | 27 | 28 | 29 | 31 | 32 | 36 | 37 | 38 | 39 | 44 | 46

  /** Since 1, 2, 4, 8, 16 and 32 are all declared, the mask is the low six bits. */
  lemma MessageTypeMask()
    ensures MESSAGE_TYPE_ALL == 0x3F
  {
  }

  /** `DEFAULT = 0` is the empty set, and it encodes as 0. */
  lemma DefaultIsEmpty()
    ensures Value(Default) == 0 && Encode8(Value(Default)) == 0
    ensures Decode8(0, MESSAGE_TYPE_ALL) == Value(Default)
  {
  }

  /** Every declared code survives encoding and decoding. */
  lemma DeclaredCodesRoundTrip(t: MessageTypeFlag)
    ensures Decode8(Encode8(Value(t)), MESSAGE_TYPE_ALL) == Value(t)
  {
    MessageTypeMask();
  }

  /**
   * Any value below 64 decodes to itself, declared or not (13, say); a value of
   * 64 or more loses its high bits.
   */
  lemma DecodeKeepsLowSixBits(v: bv8)
    ensures v < 64 ==> Decode8(v, MESSAGE_TYPE_ALL) == v
    ensures v >= 64 ==> Decode8(v, MESSAGE_TYPE_ALL) == v & 0x3F && Decode8(v, MESSAGE_TYPE_ALL) != v
  {
    MessageTypeMask();
  }

  /** 13 has no constant but decodes unchanged. */
  lemma UndeclaredThirteen()
    ensures forall t: MessageTypeFlag :: Value(t) != 13
    ensures Decode8(13, MESSAGE_TYPE_ALL) == 13
  {
    MessageTypeMask();
  }
}
