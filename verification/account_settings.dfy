/**
 * The account settings page (src/pages/AccountSettings.tsx): a profile
 * record with three text fields and four notification flags, edited by
 * `handleProfileUpdate` and `handleNotificationToggle`.
 */
module AccountSettings {

  datatype Notifications = Notifications(email: bool, sms: bool, campaigns: bool, newInfluencers: bool)

  datatype Profile = Profile(fullName: string, email: string, company: string, notifications: Notifications)

  /** The text fields the inputs edit. */
  datatype ProfileField = FullName | Email | Company

  /** The notification flags. */
  datatype Flag = EmailFlag | SmsFlag | CampaignsFlag | NewInfluencersFlag

  const InitialProfile: Profile :=
    Profile("John Doe", "john.doe@example.com", "Acme Marketing Agency", Notifications(true, false, true, false))

  function GetField(p: Profile, f: ProfileField): string
  {
    match f
    case FullName => p.fullName
    case Email => p.email
    case Company => p.company
  }

  function GetFlag(n: Notifications, f: Flag): bool
  {
    match f
    case EmailFlag => n.email
    case SmsFlag => n.sms
    case CampaignsFlag => n.campaigns
    case NewInfluencersFlag => n.newInfluencers
  }

  /** Two flag records that agree on every flag are equal. */
  lemma FlagsDetermineNotifications(n: Notifications, m: Notifications)
    requires forall f :: GetFlag(n, f) == GetFlag(m, f)
    ensures n == m
  {
    assert GetFlag(n, EmailFlag) == GetFlag(m, EmailFlag);
    assert GetFlag(n, SmsFlag) == GetFlag(m, SmsFlag);
    assert GetFlag(n, CampaignsFlag) == GetFlag(m, CampaignsFlag);
    assert GetFlag(n, NewInfluencersFlag) == GetFlag(m, NewInfluencersFlag);
  }

  /** `{ ...prev, [field]: value }`: the field takes the value, the rest of the profile is kept. */
  function UpdateField(p: Profile, f: ProfileField, value: string): (r: Profile)
    ensures forall g :: GetField(r, g) == if g == f then value else GetField(p, g)
    ensures r.notifications == p.notifications
  {
    match f
    case FullName => p.(fullName := value)
    case Email => p.(email := value)
    case Company => p.(company := value)
  }

  /** The new flags of `handleNotificationToggle`: flag `f` negated, the others kept. */
  function ToggleFlag(n: Notifications, f: Flag): (r: Notifications)
    ensures forall g :: GetFlag(r, g) == if g == f then !GetFlag(n, g) else GetFlag(n, g)
  {
    match f
    case EmailFlag => n.(email := !n.email)
    case SmsFlag => n.(sms := !n.sms)
    case CampaignsFlag => n.(campaigns := !n.campaigns)
    case NewInfluencersFlag => n.(newInfluencers := !n.newInfluencers)
  }

  /** Toggling the same flag twice restores the flags. */
  lemma ToggleTwice(n: Notifications, f: Flag)
    ensures ToggleFlag(ToggleFlag(n, f), f) == n
  {
    FlagsDetermineNotifications(ToggleFlag(ToggleFlag(n, f), f), n);
  }

  /** Toggling two different flags gives the same result in either order. */
  lemma TogglesCommute(n: Notifications, f: Flag, g: Flag)
    ensures ToggleFlag(ToggleFlag(n, f), g) == ToggleFlag(ToggleFlag(n, g), f)
  {
    FlagsDetermineNotifications(ToggleFlag(ToggleFlag(n, f), g), ToggleFlag(ToggleFlag(n, g), f));
  }

  /** What the page lets a user do: type into a text field or click one of the three rendered switches. */
  datatype SettingsAction = Edit(field: ProfileField, value: string) | Switch(flag: Flag)

  /** The page renders switches for email, campaigns and new influencers only; there is none for SMS. */
  predicate RenderedAction(a: SettingsAction)
  {
    a.Switch? ==> a.flag != SmsFlag
  }

  function Perform(p: Profile, a: SettingsAction): Profile
  {
    match a
    case Edit(f, v) => UpdateField(p, f, v)
    case Switch(f) => p.(notifications := ToggleFlag(p.notifications, f))
  }

  function PerformAll(p: Profile, actions: seq<SettingsAction>): Profile
    decreases |actions|
  {
    if actions == [] then p else PerformAll(Perform(p, actions[0]), actions[1..])
  }

  /** No sequence of rendered actions can change the SMS flag, so it stays off from the initial profile. */
  lemma {:induction false} SmsFlagNeverChanges(p: Profile, actions: seq<SettingsAction>)
    requires forall i :: 0 <= i < |actions| ==> RenderedAction(actions[i])
    ensures PerformAll(p, actions).notifications.sms == p.notifications.sms
    ensures p == InitialProfile ==> !PerformAll(p, actions).notifications.sms
    decreases |actions|
  {
    if actions != [] {
      assert RenderedAction(actions[0]);
      var q := Perform(p, actions[0]);
      assert GetFlag(q.notifications, SmsFlag) == GetFlag(p.notifications, SmsFlag);
      SmsFlagNeverChanges(q, actions[1..]);
    }
  }

  class SettingsPage {
    var profile: Profile

    constructor ()
      ensures profile == InitialProfile
      ensures profile.notifications.email && !profile.notifications.sms
      ensures profile.notifications.campaigns && !profile.notifications.newInfluencers
    {
      profile := InitialProfile;
    }

    /** `handleProfileUpdate`. */
    method HandleProfileUpdate(field: ProfileField, value: string)
      modifies this
      ensures profile == UpdateField(old(profile), field, value)
    {
      profile := UpdateField(profile, field, value);
    }

    /** `handleNotificationToggle`. */
    method HandleNotificationToggle(flag: Flag)
      modifies this
      ensures profile == old(profile).(notifications := ToggleFlag(old(profile).notifications, flag))
    {
      profile := profile.(notifications := ToggleFlag(profile.notifications, flag));
    }
  }
}
