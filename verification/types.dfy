/** The records of the application, restricted to the fields the modelled
    logic reads or writes. */
module Types {

  datatype SkillLevel = Beginner | Intermediate | Advanced | Expert

  /** A skill a user offers. */
  datatype Skill = Skill(name: string, level: SkillLevel, category: string)

  /** Where a profile was imported from. */
  datatype SocialSource = LinkedIn | GitHub | Discord | Instagram | SkillSwapNative

  /** The string value each source has in the application. */
  function SourceName(source: SocialSource): string
  {
    match source
    case LinkedIn => "LinkedIn"
    case GitHub => "GitHub"
    case Discord => "Discord"
    case Instagram => "Instagram"
    case SkillSwapNative => "SkillSwap Native"
  }

  datatype ActivityType = SwapCompleted | ProjectJoined | SkillVerified | CreditEarned

  /** An entry of a user's activity history. */
  datatype UserActivity = UserActivity(id: string, kind: ActivityType, title: string)

  datatype NotificationType = Request | Message | Rating

  /** A notification addressed to a user. */
  datatype SwapNotification = SwapNotification(id: string, from: string, message: string, kind: NotificationType)

  datatype Status = Student | Professional

  /** A user profile. Desired skills are bare names; offered skills are full
      records. */
  datatype UserProfile = UserProfile(
    id: string,
    name: string,
    major: string,
    university: string,
    status: Status,
    source: SocialSource,
    bio: string,
    offeredSkills: seq<Skill>,
    desiredSkills: seq<string>,
    credits: int,
    totalSwaps: int,
    avatar: string,
    activityHistory: seq<UserActivity>,
    notifications: seq<SwapNotification>)
}
