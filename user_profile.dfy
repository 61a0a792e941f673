/** The notification preferences of the profile page (src/components/UserProfile.tsx). */
module UserProfile {

  datatype PreferenceKey = NewRequests | StatusUpdates | SystemAlerts | WeeklyReports

  datatype NotificationPreferences = NotificationPreferences(
    newRequests: bool, statusUpdates: bool, systemAlerts: bool, weeklyReports: bool)

  /** `prefs[key]`. */
  function Get(p: NotificationPreferences, key: PreferenceKey): bool {
    match key
    case NewRequests => p.newRequests
    case StatusUpdates => p.statusUpdates
    case SystemAlerts => p.systemAlerts
    case WeeklyReports => p.weeklyReports
  }

  /** The initial preferences: everything on except system alerts. */
  const InitialPreferences := NotificationPreferences(true, true, false, true)

  lemma InitialValues()
    ensures forall key :: Get(InitialPreferences, key) <==> key != SystemAlerts
  {
  }

  /** `handleToggleNotification`. */
  function ToggleNotification(p: NotificationPreferences, key: PreferenceKey): (q: NotificationPreferences)
    ensures Get(q, key) == !Get(p, key)
    ensures forall other :: other != key ==> Get(q, other) == Get(p, other)
  {
    match key
    case NewRequests => p.(newRequests := !p.newRequests)
    case StatusUpdates => p.(statusUpdates := !p.statusUpdates)
    case SystemAlerts => p.(systemAlerts := !p.systemAlerts)
    case WeeklyReports => p.(weeklyReports := !p.weeklyReports)
  }

  /** Preferences are determined by their four values. */
  lemma Extensionality(p: NotificationPreferences, q: NotificationPreferences)
    requires forall key :: Get(p, key) == Get(q, key)
    ensures p == q
  {
    assert Get(p, NewRequests) == Get(q, NewRequests);
    assert Get(p, StatusUpdates) == Get(q, StatusUpdates);
    assert Get(p, SystemAlerts) == Get(q, SystemAlerts);
    assert Get(p, WeeklyReports) == Get(q, WeeklyReports);
  }

  /** Toggling the same key twice restores the preferences. */
  lemma ToggleTwice(p: NotificationPreferences, key: PreferenceKey)
    ensures ToggleNotification(ToggleNotification(p, key), key) == p
  {
    Extensionality(ToggleNotification(ToggleNotification(p, key), key), p);
  }

  /** Toggles of different keys commute. */
  lemma TogglesCommute(p: NotificationPreferences, a: PreferenceKey, b: PreferenceKey)
    ensures ToggleNotification(ToggleNotification(p, a), b) == ToggleNotification(ToggleNotification(p, b), a)
  {
    Extensionality(ToggleNotification(ToggleNotification(p, a), b), ToggleNotification(ToggleNotification(p, b), a));
  }

  /** `Object.values(prefs).every(value => value)`. */
  predicate AllEnabled(p: NotificationPreferences) {
    p.newRequests && p.statusUpdates && p.systemAlerts && p.weeklyReports
  }

  /** `handleToggleAll`: everything off when everything is on, everything on otherwise. */
  function ToggleAll(p: NotificationPreferences): (q: NotificationPreferences)
    ensures forall key :: Get(q, key) == !AllEnabled(p)
  {
    var v := !AllEnabled(p);
    NotificationPreferences(v, v, v, v)
  }

  /** After toggle-all the four values agree; a second toggle-all flips them all. */
  lemma ToggleAllTwice(p: NotificationPreferences)
    ensures forall a, b :: Get(ToggleAll(p), a) == Get(ToggleAll(p), b)
    ensures forall key :: Get(ToggleAll(ToggleAll(p)), key) == !Get(ToggleAll(p), key)
    ensures AllEnabled(ToggleAll(p)) <==> !AllEnabled(p)
  {
    assert Get(ToggleAll(p), NewRequests) == !AllEnabled(p);
  }

  /** From the initial preferences, toggle-all turns everything on, since system alerts start off. */
  lemma ToggleAllFromInitial()
    ensures AllEnabled(ToggleAll(InitialPreferences))
  {
    assert !AllEnabled(InitialPreferences);
  }
}
