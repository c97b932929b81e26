/** `UserFlags`: the 64-bit flag set on a user account, with its serde codec. */
module Users {
  import opened Wrappers
  import opened Bitflags

  /** The declared flags of `UserFlags`. */
  datatype UserFlag =
    | Staff
    | Partner
    | Hypesquad
    | BugHunterLevel1
    | HypesquadOnlineHouse1
    | HypesquadOnlineHouse2
    | HypesquadOnlineHouse3
    | PremiumEarlySupporter
    | TeamPseudoUser
    | BugHunterLevel2
    | VerifiedBot
    | VerifiedDeveloper
    | CertifiedModerator
    | BotHttpInteractions
    | ActiveDeveloper

  /** The value of each declared flag. */
  function Flag(f: UserFlag): bv64 {
    match f
    case Staff => 1 << 0
    case Partner => 1 << 1
    case Hypesquad => 1 << 2
    case BugHunterLevel1 => 1 << 3
    case HypesquadOnlineHouse1 => 1 << 6
    case HypesquadOnlineHouse2 => 1 << 7
    case HypesquadOnlineHouse3 => 1 << 8
    case PremiumEarlySupporter => 1 << 9
    case TeamPseudoUser => 1 << 10
    case BugHunterLevel2 => 1 << 14
    case VerifiedBot => 1 << 16
    case VerifiedDeveloper => 1 << 17
    case CertifiedModerator => 1 << 18
    case BotHttpInteractions => 1 << 19
    case ActiveDeveloper => 1 << 22
  }

  /** `UserFlags::all()`: the union of the declared flags. */
  const USER_FLAGS_ALL: bv64 :=
    Flag(Staff)
    | Flag(Partner)
    | Flag(Hypesquad)
    | Flag(BugHunterLevel1)
    | Flag(HypesquadOnlineHouse1)
    | Flag(HypesquadOnlineHouse2)
    | Flag(HypesquadOnlineHouse3)
    | Flag(PremiumEarlySupporter)
    | Flag(TeamPseudoUser)
    | Flag(BugHunterLevel2)
    | Flag(VerifiedBot)
    | Flag(VerifiedDeveloper)
    | Flag(CertifiedModerator)
    | Flag(BotHttpInteractions)
    | Flag(ActiveDeveloper)

  /** The declared bits are 0-3, 6-10, 14, 16-19 and 22. */
  lemma UserFlagsMask()
    ensures USER_FLAGS_ALL == 0x4F_47CF
  {
  }

  /** The declared flag whose bit is `v`, if any. */
  function FlagFromBit(v: bv64): Option<UserFlag> {
    if v == 1 << 0 then Some(Staff) else
    if v == 1 << 1 then Some(Partner) else
    if v == 1 << 2 then Some(Hypesquad) else
    if v == 1 << 3 then Some(BugHunterLevel1) else
    if v == 1 << 6 then Some(HypesquadOnlineHouse1) else
    if v == 1 << 7 then Some(HypesquadOnlineHouse2) else
    if v == 1 << 8 then Some(HypesquadOnlineHouse3) else
    if v == 1 << 9 then Some(PremiumEarlySupporter) else
    if v == 1 << 10 then Some(TeamPseudoUser) else
    if v == 1 << 14 then Some(BugHunterLevel2) else
    if v == 1 << 16 then Some(VerifiedBot) else
    if v == 1 << 17 then Some(VerifiedDeveloper) else
    if v == 1 << 18 then Some(CertifiedModerator) else
    if v == 1 << 19 then Some(BotHttpInteractions) else
    if v == 1 << 22 then Some(ActiveDeveloper) else
    None
  }

  /** Each declared flag's bit identifies it. */
  lemma FlagBitInverse(a: UserFlag)
    ensures FlagFromBit(Flag(a)) == Some(a)
  {
  }

  /** Each declared flag is a single bit inside the mask. */
  lemma DeclaredFlagBits(a: UserFlag)
    ensures SingleBit(Flag(a))
    ensures Flag(a) & USER_FLAGS_ALL == Flag(a)
  {
    UserFlagsMask();
  }

  /** No two declared flags share a bit. */
  lemma DeclaredFlagsDistinct(a: UserFlag, b: UserFlag)
    ensures a != b ==> Flag(a) & Flag(b) == 0
  {
    if a != b {
      FlagBitInverse(a);
      FlagBitInverse(b);
      DeclaredFlagBits(a);
      DeclaredFlagBits(b);
      SingleBitsDisjoint(Flag(a), Flag(b));
    }
  }

  /** `Into<u64>` and `Serialize` (`serialize_u64(self.bits())`). */
  function IntoU64(f: Flags64): bv64 {
    Encode64(f)
  }

  /** `Deserialize`: `from_bits_truncate` of the wire `u64`. */
  function Deserialize(v: bv64): (f: Flags64)
    ensures f & !0x4F_47CF == 0
    ensures f & 0x4F_47CF == v & 0x4F_47CF
  {
    UserFlagsMask();
    Decode64(v, USER_FLAGS_ALL)
  }

  /** A flag set made of declared flags survives serialising and deserialising unchanged. */
  lemma UserFlagsRoundTrip(f: Flags64)
    requires Within64(f, USER_FLAGS_ALL)
    ensures Deserialize(IntoU64(f)) == f
  {
    RoundTrip64(f, USER_FLAGS_ALL);
  }
}
