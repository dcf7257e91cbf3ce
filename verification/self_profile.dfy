/** The user's own profile page: the edit form with save and cancel, and the
    notifications centre with its tabs and counters. */
module SelfProfile {
  import opened Seqs
  import opened Types

  /** The four editable fields. */
  datatype EditForm = EditForm(name: string, major: string, bio: string, avatar: string)

  datatype FormField = NameField | MajorField | BioField | AvatarField

  datatype NotifTab = Received | Sent | Reviews | Projects

  /** The page's local state. */
  datatype ProfileView = ProfileView(
    isEditing: bool,
    showNotificationsCenter: bool,
    activeNotifTab: NotifTab,
    editForm: EditForm)

  /** The editable fields of a profile, as a form. */
  function FormOf(user: UserProfile): EditForm
  {
    EditForm(user.name, user.major, user.bio, user.avatar)
  }

  function FieldOf(form: EditForm, field: FormField): string
  {
    match field
    case NameField => form.name
    case MajorField => form.major
    case BioField => form.bio
    case AvatarField => form.avatar
  }

  /** Two profiles agree on every field the form cannot edit. */
  ghost predicate SameExceptEditable(a: UserProfile, b: UserProfile)
  {
    && a.id == b.id && a.university == b.university && a.status == b.status
    && a.source == b.source && a.offeredSkills == b.offeredSkills
    && a.desiredSkills == b.desiredSkills && a.credits == b.credits
    && a.totalSwaps == b.totalSwaps && a.activityHistory == b.activityHistory
    && a.notifications == b.notifications
  }

  /** The page as first shown: not editing, notifications closed on the
      received tab, and the form holding the user's current values. */
  function Init(user: UserProfile): (v: ProfileView)
    ensures !v.isEditing && !v.showNotificationsCenter && v.activeNotifTab == Received
    ensures forall f :: FieldOf(v.editForm, f) == FieldOf(FormOf(user), f)
  {
    ProfileView(false, false, Received, FormOf(user))
  }

  /** "Edit Identity". */
  function StartEditing(v: ProfileView): (r: ProfileView)
    ensures r.isEditing
    ensures r.editForm == v.editForm && r.activeNotifTab == v.activeNotifTab
    ensures r.showNotificationsCenter == v.showNotificationsCenter
  {
    v.(isEditing := true)
  }

  /** An edit-field handler: `setEditForm({...editForm, field: value})`. */
  function EditField(v: ProfileView, field: FormField, value: string): (r: ProfileView)
    ensures FieldOf(r.editForm, field) == value
    ensures forall g :: g != field ==> FieldOf(r.editForm, g) == FieldOf(v.editForm, g)
    ensures r.isEditing == v.isEditing && r.activeNotifTab == v.activeNotifTab
    ensures r.showNotificationsCenter == v.showNotificationsCenter
  {
    var f := v.editForm;
    var form := match field
      case NameField => f.(name := value)
      case MajorField => f.(major := value)
      case BioField => f.(bio := value)
      case AvatarField => f.(avatar := value);
    v.(editForm := form)
  }

  /** `{...user, ...editForm}`: the profile with the four form values and
      everything else kept. */
  function ApplyForm(user: UserProfile, form: EditForm): (r: UserProfile)
    ensures FormOf(r) == form
    ensures SameExceptEditable(r, user)
  {
    user.(name := form.name, major := form.major, bio := form.bio, avatar := form.avatar)
  }

  /** `handleSave`: hands the updated profile to the caller and leaves edit
      mode. The profile takes the four form values and keeps everything else. */
  function Save(v: ProfileView, user: UserProfile): (r: (ProfileView, UserProfile))
    ensures FormOf(r.1) == v.editForm
    ensures SameExceptEditable(r.1, user)
    ensures !r.0.isEditing && r.0.editForm == v.editForm
    ensures r.0.activeNotifTab == v.activeNotifTab && r.0.showNotificationsCenter == v.showNotificationsCenter
  {
    (v.(isEditing := false), ApplyForm(user, v.editForm))
  }

  /** "Cancel": leaves edit mode without producing a profile. The form keeps
      the abandoned edits; it is not reset to the profile's values. */
  function Cancel(v: ProfileView): (r: ProfileView)
    ensures !r.isEditing && r.editForm == v.editForm
    ensures r.activeNotifTab == v.activeNotifTab && r.showNotificationsCenter == v.showNotificationsCenter
  {
    v.(isEditing := false)
  }

  /** Saving a form nobody touched hands back the very same profile. */
  lemma SaveUntouchedIsIdentity(user: UserProfile)
    ensures Save(StartEditing(Init(user)), user).1 == user
  {
  }

  /** Saving a form and opening a fresh form on the result shows the values
      that were saved. */
  lemma SaveThenReopenShowsSavedValues(v: ProfileView, user: UserProfile)
    ensures Init(Save(v, user).1).editForm == v.editForm
  {
  }

  /** Each edit handler then a save changes exactly that field of the
      profile. */
  lemma EditThenSaveChangesOneField(user: UserProfile, field: FormField, value: string)
    ensures var saved := Save(EditField(StartEditing(Init(user)), field, value), user).1;
            && FieldOf(FormOf(saved), field) == value
            && (forall g :: g != field ==> FieldOf(FormOf(saved), g) == FieldOf(FormOf(user), g))
            && SameExceptEditable(saved, user)
  {
  }

  /** The "received" tab: the notifications of type request, in order. */
  function ReceivedRequests(notifications: seq<SwapNotification>): (r: seq<SwapNotification>)
    ensures IsSubsequence(r, notifications)
    ensures forall n :: n in r <==> n in notifications && n.kind == Request
    ensures forall n :: multiset(r)[n] == if n.kind == Request then multiset(notifications)[n] else 0
  {
    var keep := (n: SwapNotification) => n.kind == Request;
    FilterIsSubsequence(keep, notifications);
    FilterMembership(keep, notifications);
    FilterMultiplicity(keep, notifications);
    Filter(keep, notifications)
  }

  /** The "No pending requests" placeholder. */
  predicate ShowsNoPendingRequests(notifications: seq<SwapNotification>)
  {
    |ReceivedRequests(notifications)| == 0
  }

  /** The placeholder is shown exactly when no notification is a request. */
  lemma NoPendingIffNoRequest(notifications: seq<SwapNotification>)
    ensures ShowsNoPendingRequests(notifications)
            <==> forall i :: 0 <= i < |notifications| ==> notifications[i].kind != Request
  {
  }

  /** The "reviews" tab: the completed swaps, in order. */
  function ReviewsTab(activities: seq<UserActivity>): (r: seq<UserActivity>)
    ensures IsSubsequence(r, activities)
    ensures forall a :: a in r <==> a in activities && a.kind == SwapCompleted
    ensures forall a :: multiset(r)[a] == if a.kind == SwapCompleted then multiset(activities)[a] else 0
  {
    var keep := (a: UserActivity) => a.kind == SwapCompleted;
    FilterIsSubsequence(keep, activities);
    FilterMembership(keep, activities);
    FilterMultiplicity(keep, activities);
    Filter(keep, activities)
  }

  /** The "projects" tab: the joined projects, in order. */
  function ProjectsTab(activities: seq<UserActivity>): (r: seq<UserActivity>)
    ensures IsSubsequence(r, activities)
    ensures forall a :: a in r <==> a in activities && a.kind == ProjectJoined
    ensures forall a :: multiset(r)[a] == if a.kind == ProjectJoined then multiset(activities)[a] else 0
  {
    var keep := (a: UserActivity) => a.kind == ProjectJoined;
    FilterIsSubsequence(keep, activities);
    FilterMembership(keep, activities);
    FilterMultiplicity(keep, activities);
    Filter(keep, activities)
  }

  /** The Projects statistic: the number of joined-project entries, which is
      also the number of cards on the projects tab. */
  function ProjectsCounter(activities: seq<UserActivity>): (r: nat)
    ensures r == Count((a: UserActivity) => a.kind == ProjectJoined, activities)
    ensures r == |ProjectsTab(activities)|
  {
    FilterLengthIsCount((a: UserActivity) => a.kind == ProjectJoined, activities);
    |Filter((a: UserActivity) => a.kind == ProjectJoined, activities)|
  }

  /** The notifications button. */
  function OpenNotifications(v: ProfileView): (r: ProfileView)
    ensures r.showNotificationsCenter
    ensures r.isEditing == v.isEditing && r.editForm == v.editForm && r.activeNotifTab == v.activeNotifTab
  {
    v.(showNotificationsCenter := true)
  }

  /** The close button of the notifications centre. */
  function CloseNotifications(v: ProfileView): (r: ProfileView)
    ensures !r.showNotificationsCenter
    ensures r.isEditing == v.isEditing && r.editForm == v.editForm && r.activeNotifTab == v.activeNotifTab
  {
    v.(showNotificationsCenter := false)
  }

  /** A tab button of the notifications centre. */
  function SelectNotifTab(v: ProfileView, tab: NotifTab): (r: ProfileView)
    ensures r.activeNotifTab == tab
    ensures r.isEditing == v.isEditing && r.editForm == v.editForm
    ensures r.showNotificationsCenter == v.showNotificationsCenter
  {
    v.(activeNotifTab := tab)
  }
}
