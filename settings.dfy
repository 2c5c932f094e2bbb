/**
 * The settings page: two records of on/off preferences, each toggled one key at a time,
 * and a reset that restores both records to their defaults and clears the profile
 * fields.
 */
module Settings {

  datatype NotificationSettings = NotificationSettings(projectUpdates: bool, donations: bool, milestones: bool, marketing: bool)
  datatype NotificationKey = ProjectUpdates | Donations | Milestones | Marketing

  datatype PrivacySettings = PrivacySettings(showProfile: bool, showDonations: bool, showCreatedProjects: bool)
  datatype PrivacyKey = ShowProfile | ShowDonations | ShowCreatedProjects

  /** Every update on, marketing off. */
  const DefaultNotifications := NotificationSettings(true, true, true, false)
  /** Everything visible. */
  const DefaultPrivacy := PrivacySettings(true, true, true)

  const ResetMessage := "Settings reset to defaults"

  /** `prev[setting]` on the notification record. */
  function NotificationValue(s: NotificationSettings, k: NotificationKey): bool {
    match k
    case ProjectUpdates => s.projectUpdates
    case Donations => s.donations
    case Milestones => s.milestones
    case Marketing => s.marketing
  }

  /** `{ ...prev, [setting]: !prev[setting] }` on the notification record. */
  function FlipNotification(s: NotificationSettings, k: NotificationKey): (r: NotificationSettings)
    ensures NotificationValue(r, k) == !NotificationValue(s, k)
    ensures forall other :: other != k ==> NotificationValue(r, other) == NotificationValue(s, other)
  {
    match k
    case ProjectUpdates => s.(projectUpdates := !s.projectUpdates)
    case Donations => s.(donations := !s.donations)
    case Milestones => s.(milestones := !s.milestones)
    case Marketing => s.(marketing := !s.marketing)
  }

  /** Two records that agree on every key are the same record. */
  lemma NotificationsByKeys(a: NotificationSettings, b: NotificationSettings)
    requires forall k :: NotificationValue(a, k) == NotificationValue(b, k)
    ensures a == b
  {
    assert NotificationValue(a, ProjectUpdates) == NotificationValue(b, ProjectUpdates);
    assert NotificationValue(a, Donations) == NotificationValue(b, Donations);
    assert NotificationValue(a, Milestones) == NotificationValue(b, Milestones);
    assert NotificationValue(a, Marketing) == NotificationValue(b, Marketing);
  }

  /** Toggling the same notification key twice restores the record. */
  lemma FlipNotificationTwice(s: NotificationSettings, k: NotificationKey)
    ensures FlipNotification(FlipNotification(s, k), k) == s
  {
    NotificationsByKeys(FlipNotification(FlipNotification(s, k), k), s);
  }

  /** Toggles of different keys commute. */
  lemma FlipNotificationCommutes(s: NotificationSettings, j: NotificationKey, k: NotificationKey)
    ensures FlipNotification(FlipNotification(s, j), k) == FlipNotification(FlipNotification(s, k), j)
  {
    NotificationsByKeys(FlipNotification(FlipNotification(s, j), k), FlipNotification(FlipNotification(s, k), j));
  }

  /** `prev[setting]` on the privacy record. */
  function PrivacyValue(s: PrivacySettings, k: PrivacyKey): bool {
    match k
    case ShowProfile => s.showProfile
    case ShowDonations => s.showDonations
    case ShowCreatedProjects => s.showCreatedProjects
  }

  /** `{ ...prev, [setting]: !prev[setting] }` on the privacy record. */
  function FlipPrivacy(s: PrivacySettings, k: PrivacyKey): (r: PrivacySettings)
    ensures PrivacyValue(r, k) == !PrivacyValue(s, k)
    ensures forall other :: other != k ==> PrivacyValue(r, other) == PrivacyValue(s, other)
  {
    match k
    case ShowProfile => s.(showProfile := !s.showProfile)
    case ShowDonations => s.(showDonations := !s.showDonations)
    case ShowCreatedProjects => s.(showCreatedProjects := !s.showCreatedProjects)
  }

  /** Two privacy records that agree on every key are the same record. */
  lemma PrivacyByKeys(a: PrivacySettings, b: PrivacySettings)
    requires forall k :: PrivacyValue(a, k) == PrivacyValue(b, k)
    ensures a == b
  {
    assert PrivacyValue(a, ShowProfile) == PrivacyValue(b, ShowProfile);
    assert PrivacyValue(a, ShowDonations) == PrivacyValue(b, ShowDonations);
    assert PrivacyValue(a, ShowCreatedProjects) == PrivacyValue(b, ShowCreatedProjects);
  }

  /** Toggling the same privacy key twice restores the record. */
  lemma FlipPrivacyTwice(s: PrivacySettings, k: PrivacyKey)
    ensures FlipPrivacy(FlipPrivacy(s, k), k) == s
  {
    PrivacyByKeys(FlipPrivacy(FlipPrivacy(s, k), k), s);
  }

  /** The defaults: every notification key but marketing is on, every privacy key is on. */
  lemma Defaults()
    ensures forall k :: NotificationValue(DefaultNotifications, k) <==> k != Marketing
    ensures forall k :: PrivacyValue(DefaultPrivacy, k)
  {
  }

  class SettingsPage {
    var notifications: NotificationSettings
    var privacy: PrivacySettings
    var displayName: string
    var bio: string
    /** The messages passed to `showSuccess`, oldest first. */
    var successToasts: seq<string>

    constructor ()
      ensures notifications == DefaultNotifications && privacy == DefaultPrivacy
      ensures displayName == [] && bio == [] && successToasts == []
    {
      notifications, privacy := DefaultNotifications, DefaultPrivacy;
      displayName, bio, successToasts := [], [], [];
    }

    /** `handleNotificationChange`: exactly the named key flips. */
    method HandleNotificationChange(setting: NotificationKey)
      modifies this
      ensures notifications == FlipNotification(old(notifications), setting)
      ensures privacy == old(privacy) && displayName == old(displayName) && bio == old(bio)
      ensures successToasts == old(successToasts)
    {
      notifications := FlipNotification(notifications, setting);
    }

    /** `handlePrivacyChange`: exactly the named key flips. */
    method HandlePrivacyChange(setting: PrivacyKey)
      modifies this
      ensures privacy == FlipPrivacy(old(privacy), setting)
      ensures notifications == old(notifications) && displayName == old(displayName) && bio == old(bio)
      ensures successToasts == old(successToasts)
    {
      privacy := FlipPrivacy(privacy, setting);
    }

    /** `resetSettings`: both records back to their defaults, the profile fields cleared, one toast. */
    method ResetSettings()
      modifies this
      ensures notifications == DefaultNotifications && privacy == DefaultPrivacy
      ensures displayName == [] && bio == []
      ensures successToasts == old(successToasts) + [ResetMessage]
    {
      notifications := NotificationSettings(true, true, true, false);
      privacy := PrivacySettings(true, true, true);
      displayName, bio := [], [];
      successToasts := successToasts + [ResetMessage];
    }
  }
}
