/**
 * The tenant settings store: one settings record plus the light/dark theme,
 * updated by a shallow partial merge, a reset to the default table that keeps
 * the tenant id (and the theme), and a theme toggle.
 */
module SettingsStore {
  import opened Builtins
  import opened Types

  datatype Theme = Light | Dark

  function Flip(t: Theme): (r: Theme)
    ensures r != t
  {
    if t == Light then Dark else Light
  }

  /**
   * `Partial<TenantSettings>`: every field may be left out. A supplied
   * `notifications` is a whole sub-record: the merge is shallow.
   */
  datatype SettingsPatch = SettingsPatch(
    tenantId: Option<string>,
    appName: Option<string>,
    logoUrl: Option<Option<string>>,
    faviconUrl: Option<Option<string>>,
    primaryColor: Option<string>,
    secondaryColor: Option<string>,
    customDomain: Option<string>,
    supportEmail: Option<string>,
    hidePoweredBy: Option<bool>,
    emailHeaderText: Option<string>,
    emailFooterText: Option<string>,
    timezone: Option<string>,
    language: Option<string>,
    sessionTimeout: Option<int>,
    enforce2FA: Option<bool>,
    notifications: Option<Notifications>)

  const EmptyPatch := SettingsPatch(None, None, None, None, None, None, None, None,
                                    None, None, None, None, None, None, None, None)

  /** `{ ...s, ...p }`. */
  function Merge(s: TenantSettings, p: SettingsPatch): (r: TenantSettings)
    ensures p == EmptyPatch ==> r == s
    ensures p.tenantId.None? ==> r.tenantId == s.tenantId
    ensures p.notifications.Some? ==> r.notifications == p.notifications.value
  {
    TenantSettings(
      p.tenantId.GetOr(s.tenantId),
      p.appName.GetOr(s.appName),
      p.logoUrl.GetOr(s.logoUrl),
      p.faviconUrl.GetOr(s.faviconUrl),
      p.primaryColor.GetOr(s.primaryColor),
      p.secondaryColor.GetOr(s.secondaryColor),
      p.customDomain.GetOr(s.customDomain),
      p.supportEmail.GetOr(s.supportEmail),
      p.hidePoweredBy.GetOr(s.hidePoweredBy),
      p.emailHeaderText.GetOr(s.emailHeaderText),
      p.emailFooterText.GetOr(s.emailFooterText),
      p.timezone.GetOr(s.timezone),
      p.language.GetOr(s.language),
      p.sessionTimeout.GetOr(s.sessionTimeout),
      p.enforce2FA.GetOr(s.enforce2FA),
      p.notifications.GetOr(s.notifications))
  }

  /** A whole record passed as a partial one: every field supplied. */
  function FullPatch(s: TenantSettings): SettingsPatch
  {
    SettingsPatch(
      Some(s.tenantId), Some(s.appName), Some(s.logoUrl), Some(s.faviconUrl),
      Some(s.primaryColor), Some(s.secondaryColor), Some(s.customDomain), Some(s.supportEmail),
      Some(s.hidePoweredBy), Some(s.emailHeaderText), Some(s.emailFooterText), Some(s.timezone),
      Some(s.language), Some(s.sessionTimeout), Some(s.enforce2FA), Some(s.notifications))
  }

  function Later<T>(a: Option<T>, b: Option<T>): Option<T>
  {
    if b.Some? then b else a
  }

  /** `{ ...p, ...q }` on two partial records. */
  function Combine(p: SettingsPatch, q: SettingsPatch): SettingsPatch
  {
    SettingsPatch(
      Later(p.tenantId, q.tenantId), Later(p.appName, q.appName),
      Later(p.logoUrl, q.logoUrl), Later(p.faviconUrl, q.faviconUrl),
      Later(p.primaryColor, q.primaryColor), Later(p.secondaryColor, q.secondaryColor),
      Later(p.customDomain, q.customDomain), Later(p.supportEmail, q.supportEmail),
      Later(p.hidePoweredBy, q.hidePoweredBy), Later(p.emailHeaderText, q.emailHeaderText),
      Later(p.emailFooterText, q.emailFooterText), Later(p.timezone, q.timezone),
      Later(p.language, q.language), Later(p.sessionTimeout, q.sessionTimeout),
      Later(p.enforce2FA, q.enforce2FA), Later(p.notifications, q.notifications))
  }

  /** Merging nothing changes nothing. */
  lemma MergeEmpty(s: TenantSettings)
    ensures Merge(s, EmptyPatch) == s
  {
  }

  /** Merging a whole record gives that record, whatever was there before. */
  lemma MergeFull(s: TenantSettings, t: TenantSettings)
    ensures Merge(s, FullPatch(t)) == t
  {
  }

  /** Two merges in a row are one merge of the combined patch. */
  lemma MergeTwice(s: TenantSettings, p: SettingsPatch, q: SettingsPatch)
    ensures Merge(Merge(s, p), q) == Merge(s, Combine(p, q))
  {
  }

  /** Merging the same patch again changes nothing. */
  lemma MergeIdempotent(s: TenantSettings, p: SettingsPatch)
    ensures Merge(Merge(s, p), p) == Merge(s, p)
  {
  }

  /** A merge can overwrite the tenant id: the argument is any partial record. */
  lemma MergeCanChangeTenant(s: TenantSettings, id: string)
    ensures Merge(s, EmptyPatch.(tenantId := Some(id))).tenantId == id
    ensures Merge(s, EmptyPatch.(tenantId := Some(id))) == s.(tenantId := id)
  {
  }

  /** A supplied `notifications` replaces the whole sub-record. */
  lemma MergeIsShallow(s: TenantSettings, n: Notifications)
    ensures Merge(s, EmptyPatch.(notifications := Some(n))) == s.(notifications := n)
  {
  }

  /** `setSettings({ primaryColor: c })` changes that one field. */
  lemma MergeOneColor(s: TenantSettings, c: string)
    ensures Merge(s, EmptyPatch.(primaryColor := Some(c))) == s.(primaryColor := c)
  {
  }

  /** The default table: every field but the tenant id, as a partial record. */
  const DefaultsPatch := SettingsPatch(
    None,
    Some("Colloki"),
    Some(None),
    Some(None),
    Some("#3b82f6"),
    Some("#64748b"),
    Some(""),
    Some(""),
    Some(false),
    Some("Welcome to our platform!"),
    Some("Â© 2024 Colloki. All rights reserved."),
    Some("UTC"),
    Some("en"),
    Some(60),
    Some(false),
    Some(Notifications(true, true)))

  /** The defaults written out as a whole record for a given tenant. */
  function Defaults(tenantId: string): (s: TenantSettings)
    ensures s.tenantId == tenantId
  {
    TenantSettings(tenantId, "Colloki", None, None, "#3b82f6", "#64748b", "", "", false,
                   "Welcome to our platform!", "Â© 2024 Colloki. All rights reserved.",
                   "UTC", "en", 60, false, Notifications(true, true))
  }

  /** `resetToDefaults`: `{ ...state, ...defaultSettings }`. */
  function Reset(s: TenantSettings): (r: TenantSettings)
    ensures r == Defaults(s.tenantId)
  {
    Merge(s, DefaultsPatch)
  }

  /** A reset gives every default field its default and keeps the tenant id. */
  lemma ResetGivesDefaults(s: TenantSettings)
    ensures Reset(s) == Defaults(s.tenantId)
  {
  }

  /** Resetting twice is resetting once. */
  lemma ResetIdempotent(s: TenantSettings)
    ensures Reset(Reset(s)) == Reset(s)
  {
  }

  /** After a reset, two records agree exactly when their tenant ids did. */
  lemma ResetForgetsAllButTenant(s: TenantSettings, t: TenantSettings)
    ensures Reset(s) == Reset(t) <==> s.tenantId == t.tenantId
  {
    if Reset(s) == Reset(t) {
      assert Reset(s).tenantId == s.tenantId;
    }
  }

  const InitialTenantId := "tenant-123"

  /** The settings store. */
  class Store {
    var settings: TenantSettings
    var theme: Theme

    /** The default table with `tenantId = 'tenant-123'` and the light theme. */
    constructor ()
      ensures settings == Defaults(InitialTenantId) && theme == Light
    {
      settings := Defaults(InitialTenantId);
      theme := Light;
    }

    method SetSettings(p: SettingsPatch)
      modifies this
      ensures settings == Merge(old(settings), p) && theme == old(theme)
    {
      settings := Merge(settings, p);
    }

    method ResetToDefaults()
      modifies this
      ensures settings == Defaults(old(settings).tenantId) && theme == old(theme)
    {
      ResetGivesDefaults(settings);
      settings := Reset(settings);
    }

    method ToggleTheme()
      modifies this
      ensures theme == Flip(old(theme)) && settings == old(settings)
    {
      theme := Flip(theme);
    }
  }

  /** Toggling the theme twice restores it. */
  lemma FlipTwice(t: Theme)
    ensures Flip(Flip(t)) == t
  {
  }
}
